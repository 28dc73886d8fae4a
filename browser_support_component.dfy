/** The browser-support list kept by the user interface: one record per
    browser the user wants supported, added, updated or removed as the user
    picks a minimum version (or "None") for a browser. */
module BrowserSupportComponent {
  import opened Wrappers
  import opened Options

  /** What a radio choice hands to the change handler: a browser and either a
      version or, for the "None" choice, no version. */
  datatype SupportChoice = SupportChoice(browser: Browser, version: Option<string>)

  /** The position of the first record for `browser`, if there is one. */
  function FirstMatch(list: seq<BrowserSupport>, browser: Browser): (r: Option<nat>)
    ensures r.None? <==> forall j :: 0 <= j < |list| ==> list[j].browser != browser
    ensures r.Some? ==> r.value < |list| && list[r.value].browser == browser
    ensures r.Some? ==> forall j :: 0 <= j < r.value ==> list[j].browser != browser
  {
    if list == [] then None
    else if list[0].browser == browser then Some(0)
    else
      match FirstMatch(list[1..], browser)
      case None => None
      case Some(i) => Some(i + 1)
  }

  /** The list after the user's choice, or the error the choice raises. The
      first record for the browser is removed ("None") or has its minimum
      version overwritten, without validation; with no such record a
      validated record is appended, and "None" changes nothing. The only
      failure is a version for an untracked browser that the catalog does
      not list; each choice changes the length by at most one. */
  function ApplyChange(list: seq<BrowserSupport>, support: SupportChoice): (r: Result<seq<BrowserSupport>, Error>)
    ensures r.Err? <==>
              && FirstMatch(list, support.browser).None?
              && support.version.Some?
              && support.version.value !in support.browser.versions
    ensures r.Err? ==> r.error == InvalidVersion(support.version.value, support.browser.name)
    ensures r.Ok? ==>
              |r.value| ==
                if FirstMatch(list, support.browser).Some? then
                  (if support.version.None? then |list| - 1 else |list|)
                else
                  (if support.version.None? then |list| else |list| + 1)
    ensures FirstMatch(list, support.browser).None? && r.Ok? ==>
              r.value == if support.version.None? then list
                         else list + [BrowserSupport(support.browser, support.version.value)]
  {
    match FirstMatch(list, support.browser)
    case Some(i) =>
      if support.version.None? then Ok(list[..i] + list[i + 1..])
      else Ok(list[i := list[i].(minVersion := support.version.value)])
    case None =>
      if support.version.None? then Ok(list)
      else
        match NewBrowserSupport(support.browser, support.version.value)
        case Ok(record) => Ok(list + [record])
        case Err(e) => Err(e)
  }

  /** No browser has two records. */
  ghost predicate AtMostOnePerBrowser(list: seq<BrowserSupport>)
  {
    forall j, k :: 0 <= j < k < |list| ==> list[j].browser != list[k].browser
  }

  /** Every record names a version its browser is known to have. */
  ghost predicate AllValid(list: seq<BrowserSupport>)
  {
    forall j :: 0 <= j < |list| ==> list[j].minVersion in list[j].browser.versions
  }

  /** The list read as a map from browser to minimum version; where a
      browser has several records the first one wins, as in the handler. */
  function MinVersions(list: seq<BrowserSupport>): map<Browser, string>
  {
    if list == [] then map[] else MinVersions(list[1..])[list[0].browser := list[0].minVersion]
  }

  /** The records of every browser other than `browser`, in list order. */
  function OtherBrowsers(list: seq<BrowserSupport>, browser: Browser): seq<BrowserSupport>
  {
    if list == [] then []
    else (if list[0].browser == browser then [] else [list[0]]) + OtherBrowsers(list[1..], browser)
  }

  /** Looking a browser up in the map view finds the first record for it. */
  lemma {:induction false} MinVersionsLookup(list: seq<BrowserSupport>, browser: Browser)
    ensures browser in MinVersions(list) <==> FirstMatch(list, browser).Some?
    ensures browser in MinVersions(list) ==>
              MinVersions(list)[browser] == list[FirstMatch(list, browser).value].minVersion
  {
    if list != [] && list[0].browser != browser {
      MinVersionsLookup(list[1..], browser);
    }
  }

  lemma {:induction false} MinVersionsConcat(a: seq<BrowserSupport>, c: seq<BrowserSupport>)
    ensures MinVersions(a + c) == MinVersions(c) + MinVersions(a)
  {
    if a == [] {
      assert a + c == c;
    } else {
      assert (a + c)[1..] == a[1..] + c;
      MinVersionsConcat(a[1..], c);
    }
  }

  lemma {:induction false} OtherBrowsersConcat(a: seq<BrowserSupport>, c: seq<BrowserSupport>, browser: Browser)
    ensures OtherBrowsers(a + c, browser) == OtherBrowsers(a, browser) + OtherBrowsers(c, browser)
  {
    if a == [] {
      assert a + c == c;
    } else {
      assert (a + c)[1..] == a[1..] + c;
      OtherBrowsersConcat(a[1..], c, browser);
    }
  }

  /** Only the first record for the browser is touched: every other record
      stays as it was (one place earlier after a removal), later records of
      the same browser included, and an overwritten record keeps its place. */
  lemma ChangeTouchesOnlyFirstMatch(list: seq<BrowserSupport>, support: SupportChoice, i: nat)
    requires FirstMatch(list, support.browser) == Some(i)
    ensures ApplyChange(list, support).Ok?
    ensures support.version.None? ==>
              var after := ApplyChange(list, support).value;
              && |after| == |list| - 1
              && (forall j :: 0 <= j < i ==> after[j] == list[j])
              && (forall j :: i <= j < |after| ==> after[j] == list[j + 1])
    ensures support.version.Some? ==>
              var after := ApplyChange(list, support).value;
              && |after| == |list|
              && after[i] == BrowserSupport(list[i].browser, support.version.value)
              && (forall j :: 0 <= j < |list| && j != i ==> after[j] == list[j])
  {
  }

  /** Picking "None" for a browser with two records removes only the first. */
  lemma DeselectKeepsLaterDuplicate()
    ensures ApplyChange([BrowserSupport(IE, "8"), BrowserSupport(IE, "9")], SupportChoice(IE, None))
         == Ok([BrowserSupport(IE, "9")])
  {
    var list := [BrowserSupport(IE, "8"), BrowserSupport(IE, "9")];
    assert FirstMatch(list, IE) == Some(0);
    assert list[..0] + list[1..] == [BrowserSupport(IE, "9")];
  }

  /** Records of other browsers are never touched and keep their order. */
  lemma ChangeKeepsOtherBrowsers(list: seq<BrowserSupport>, support: SupportChoice)
    requires ApplyChange(list, support).Ok?
    ensures OtherBrowsers(ApplyChange(list, support).value, support.browser) == OtherBrowsers(list, support.browser)
  {
    var b := support.browser;
    match FirstMatch(list, b)
    case Some(i) =>
      var pre, post := list[..i], list[i + 1..];
      assert list == pre + [list[i]] + post;
      OtherBrowsersConcat(pre + [list[i]], post, b);
      OtherBrowsersConcat(pre, [list[i]], b);
      if support.version.None? {
        OtherBrowsersConcat(pre, post, b);
      } else {
        var updated := list[i].(minVersion := support.version.value);
        assert ApplyChange(list, support).value == pre + [updated] + post;
        OtherBrowsersConcat(pre + [updated], post, b);
        OtherBrowsersConcat(pre, [updated], b);
      }
    case None =>
      if support.version.Some? {
        var record := BrowserSupport(b, support.version.value);
        OtherBrowsersConcat(list, [record], b);
      }
  }

  /** Removing the only record of a browser deletes that browser's key. */
  lemma RemoveActsOnMinVersions(list: seq<BrowserSupport>, i: nat)
    requires AtMostOnePerBrowser(list)
    requires i < |list|
    ensures MinVersions(list[..i] + list[i + 1..]) == MinVersions(list) - {list[i].browser}
  {
    var pre, post, b := list[..i], list[i + 1..], list[i].browser;
    assert list == (pre + [list[i]]) + post;
    MinVersionsConcat(pre + [list[i]], post);
    MinVersionsConcat(pre, [list[i]]);
    MinVersionsConcat(pre, post);
    MinVersionsLookup(pre, b);
    MinVersionsLookup(post, b);
    assert b !in MinVersions(pre) by {
      forall j | 0 <= j < |pre| ensures pre[j].browser != b {
        assert pre[j] == list[j];
      }
    }
    assert b !in MinVersions(post) by {
      forall j | 0 <= j < |post| ensures post[j].browser != b {
        assert post[j] == list[i + 1 + j];
      }
    }
    assert MinVersions([list[i]]) == map[b := list[i].minVersion];
    DropMiddleKey(MinVersions(post), MinVersions(pre), b, list[i].minVersion);
  }

  lemma DropMiddleKey(outer: map<Browser, string>, inner: map<Browser, string>, b: Browser, v: string)
    requires b !in outer && b !in inner
    ensures (outer + (map[b := v] + inner)) - {b} == outer + inner
  {
  }

  /** Overwriting the first record of a browser sets that browser's key. */
  lemma UpdateActsOnMinVersions(list: seq<BrowserSupport>, i: nat, version: string)
    requires i < |list|
    requires forall j :: 0 <= j < i ==> list[j].browser != list[i].browser
    ensures MinVersions(list[i := list[i].(minVersion := version)])
         == MinVersions(list)[list[i].browser := version]
  {
    var pre, post, b := list[..i], list[i + 1..], list[i].browser;
    var updated := list[i].(minVersion := version);
    assert list == (pre + [list[i]]) + post;
    assert list[i := updated] == (pre + [updated]) + post;
    MinVersionsConcat(pre + [list[i]], post);
    MinVersionsConcat(pre, [list[i]]);
    MinVersionsConcat(pre + [updated], post);
    MinVersionsConcat(pre, [updated]);
    MinVersionsLookup(pre, b);
    assert b !in MinVersions(pre) by {
      forall j | 0 <= j < |pre| ensures pre[j].browser != b {
        assert pre[j] == list[j];
      }
    }
    assert MinVersions([updated]) == map[b := version];
    assert MinVersions([list[i]]) == map[b := list[i].minVersion];
    ReplaceMiddleKey(MinVersions(post), MinVersions(pre), b, list[i].minVersion, version);
  }

  lemma ReplaceMiddleKey(outer: map<Browser, string>, inner: map<Browser, string>, b: Browser, v: string, w: string)
    requires b !in inner
    ensures outer + (map[b := w] + inner) == (outer + (map[b := v] + inner))[b := w]
  {
  }

  /** Appending a record for an untracked browser adds that browser's key. */
  lemma AppendActsOnMinVersions(list: seq<BrowserSupport>, record: BrowserSupport)
    requires FirstMatch(list, record.browser).None?
    ensures MinVersions(list + [record]) == MinVersions(list)[record.browser := record.minVersion]
  {
    MinVersionsConcat(list, [record]);
    MinVersionsLookup(list, record.browser);
    assert MinVersions([record]) == map[record.browser := record.minVersion];
  }

  /** With at most one record per browser, the list behaves as a map from
      browser to minimum version: "None" deletes the browser's key, and a
      version sets it, whether the record was there before or not. */
  lemma ChangeActsOnMinVersions(list: seq<BrowserSupport>, support: SupportChoice)
    requires AtMostOnePerBrowser(list)
    requires ApplyChange(list, support).Ok?
    ensures MinVersions(ApplyChange(list, support).value) ==
              if support.version.None? then MinVersions(list) - {support.browser}
              else MinVersions(list)[support.browser := support.version.value]
  {
    var b := support.browser;
    match FirstMatch(list, b)
    case Some(i) =>
      if support.version.None? {
        RemoveActsOnMinVersions(list, i);
      } else {
        UpdateActsOnMinVersions(list, i, support.version.value);
      }
    case None =>
      MinVersionsLookup(list, b);
      if support.version.Some? {
        AppendActsOnMinVersions(list, BrowserSupport(b, support.version.value));
      }
  }

  /** At most one record per browser before a choice, still so after it. */
  lemma ChangeKeepsAtMostOnePerBrowser(list: seq<BrowserSupport>, support: SupportChoice)
    requires AtMostOnePerBrowser(list)
    requires ApplyChange(list, support).Ok?
    ensures AtMostOnePerBrowser(ApplyChange(list, support).value)
  {
  }

  /** Valid records stay valid when the chosen version is "None" or one the
      catalog lists for the browser. */
  lemma ChangeKeepsAllValid(list: seq<BrowserSupport>, support: SupportChoice)
    requires AllValid(list)
    requires support.version.Some? ==> support.version.value in support.browser.versions
    requires ApplyChange(list, support).Ok?
    ensures AllValid(ApplyChange(list, support).value)
  {
  }

  /** Overwriting a tracked browser's version does not validate it: a
      version the constructor refuses still ends up in the list. */
  lemma UpdateSkipsValidation()
    ensures NewBrowserSupport(IE, "12").Err?
    ensures ApplyChange([BrowserSupport(IE, "8")], SupportChoice(IE, Some("12")))
         == Ok([BrowserSupport(IE, "12")])
  {
    var list := [BrowserSupport(IE, "8")];
    assert FirstMatch(list, IE) == Some(0);
    assert list[0 := list[0].(minVersion := "12")] == [BrowserSupport(IE, "12")];
    assert "12" !in IE.versions;
  }

  /** Picking "8" for Internet Explorer on an empty list adds one record. */
  lemma ScenarioSelectAdds()
    ensures ApplyChange([], SupportChoice(IE, Some("8"))) == Ok([BrowserSupport(IE, "8")])
  {
    assert IE.versions[3] == "8";
    var empty: seq<BrowserSupport> := [];
    assert FirstMatch(empty, IE) == None;
    assert empty + [BrowserSupport(IE, "8")] == [BrowserSupport(IE, "8")];
  }

  /** Then picking "10" updates that record in place; the length stays 1. */
  lemma ScenarioReselectUpdates()
    ensures ApplyChange([BrowserSupport(IE, "8")], SupportChoice(IE, Some("10"))) == Ok([BrowserSupport(IE, "10")])
  {
    var eight := [BrowserSupport(IE, "8")];
    assert FirstMatch(eight, IE) == Some(0);
    assert eight[0 := eight[0].(minVersion := "10")] == [BrowserSupport(IE, "10")];
  }

  /** Then picking "None" removes it, leaving the list empty. */
  lemma ScenarioDeselectRemoves()
    ensures ApplyChange([BrowserSupport(IE, "10")], SupportChoice(IE, None)) == Ok([])
  {
    var ten := [BrowserSupport(IE, "10")];
    assert FirstMatch(ten, IE) == Some(0);
    assert ten[..0] + ten[1..] == [];
  }

  /** The component's state: its list of browser support records. */
  class Component {
    var browserSupport: seq<BrowserSupport>

    constructor()
      ensures browserSupport == []
    {
      browserSupport := [];
    }

    method GetBrowserSupport() returns (list: seq<BrowserSupport>)
      ensures list == browserSupport
    {
      list := browserSupport;
    }

    /** Applies the user's choice in place. `thrown` is the error the record
        constructor raises, in which case the list is left as it was. */
    method HandleBrowserSupportChange(support: SupportChoice) returns (thrown: Option<Error>)
      modifies this
      ensures thrown.None? ==> ApplyChange(old(browserSupport), support) == Ok(browserSupport)
      ensures thrown.Some? ==> ApplyChange(old(browserSupport), support) == Err(thrown.value)
      ensures thrown.Some? ==> browserSupport == old(browserSupport)
      ensures AtMostOnePerBrowser(old(browserSupport)) ==> AtMostOnePerBrowser(browserSupport)
    {
      var i := 0;
      while i < |browserSupport|
        invariant 0 <= i <= |browserSupport|
        invariant browserSupport == old(browserSupport)
        invariant forall j :: 0 <= j < i ==> browserSupport[j].browser != support.browser
      {
        var record := browserSupport[i];
        if record.browser == support.browser {
          if support.version.None? {
            browserSupport := browserSupport[..i] + browserSupport[i + 1..];
          } else {
            browserSupport := browserSupport[i := record.(minVersion := support.version.value)];
          }
          if AtMostOnePerBrowser(old(browserSupport)) {
            ChangeKeepsAtMostOnePerBrowser(old(browserSupport), support);
          }
          return None;
        }
        i := i + 1;
      }

      if support.version.Some? {
        var made := NewBrowserSupport(support.browser, support.version.value);
        if made.Err? {
          return Some(made.error);
        }
        browserSupport := browserSupport + [made.value];
      }
      if AtMostOnePerBrowser(old(browserSupport)) {
        ChangeKeepsAtMostOnePerBrowser(old(browserSupport), support);
      }
      return None;
    }
  }
}
