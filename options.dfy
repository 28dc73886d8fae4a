/** The option model of the centering tool: lengths with units, text metrics,
    content and container boxes, alignments, and browser support records. */
module Options {
  import opened Wrappers

  /** The two ways the option model refuses an operation. */
  datatype Error =
    | LengthTypeMismatch                                  // add/subtract of different units
    | InvalidVersion(version: string, browserName: string) // BrowserSupport construction

  /** The unit of a length. Each variant stands for one of the source's
      singleton objects, so identity becomes datatype equality. */
  datatype LengthType = Pixel | Percentage | Em
  {
    /** The CSS unit token, which is also the type's display string. */
    function CssUnit(): (u: string)
      ensures |u| > 0
    {
      match this
      case Pixel => "px"
      case Percentage => "%"
      case Em => "em"
    }

    /** Every unit, in the order a user interface lists them. */
    static function AllTypes(): (all: seq<LengthType>)
      ensures |all| == 3
      ensures forall i, j :: 0 <= i < j < |all| ==> all[i] != all[j]
      ensures all[0].CssUnit() == "px" && all[1].CssUnit() == "%" && all[2].CssUnit() == "em"
    {
      [Pixel, Percentage, Em]
    }
  }

  /** Every unit is listed. */
  lemma AllTypesComplete(t: LengthType)
    ensures t in LengthType.AllTypes()
  {
  }

  /** Distinct units have distinct tokens. */
  lemma CssUnitInjective(s: LengthType, t: LengthType)
    ensures s.CssUnit() == t.CssUnit() <==> s == t
  {
  }

  /** A number tagged with a unit. Arithmetic returns new lengths. */
  datatype Length = Length(value: real, lengthType: LengthType)
  {
    /** Scaling keeps the unit and always succeeds. */
    function Multiply(multiplier: real): (r: Length)
      ensures r.lengthType == lengthType
      ensures r.value == value * multiplier
    {
      Length(value * multiplier, lengthType)
    }

    /** Sum of two lengths; refused unless both have the same unit. */
    function Add(other: Length): (r: Result<Length, Error>)
      ensures r.Ok? <==> other.lengthType == lengthType
      ensures r.Err? ==> r.error == LengthTypeMismatch
      ensures r.Ok? ==> r.value.lengthType == lengthType && r.value.value == value + other.value
    {
      if other.lengthType != lengthType then Err(LengthTypeMismatch)
      else Ok(Length(value + other.value, lengthType))
    }

    /** Difference of two lengths; refused unless both have the same unit. */
    function Subtract(other: Length): (r: Result<Length, Error>)
      ensures r.Ok? <==> other.lengthType == lengthType
      ensures r.Err? ==> r.error == LengthTypeMismatch
      ensures r.Ok? ==> r.value.lengthType == lengthType && r.value.value == value - other.value
    {
      if other.lengthType != lengthType then Err(LengthTypeMismatch)
      else Ok(Length(value - other.value, lengthType))
    }

    /** The display string: the number's own string form followed by the
        unit token. How a number is written is a parameter of the model. */
    function ToString(numberToString: real -> string): (s: string)
      ensures |s| == |numberToString(value)| + |lengthType.CssUnit()|
      ensures s[..|numberToString(value)|] == numberToString(value)
      ensures s[|numberToString(value)|..] == lengthType.CssUnit()
    {
      numberToString(value) + lengthType.CssUnit()
    }

    static function Px(value: real): (r: Length)
      ensures r.lengthType.CssUnit() == "px" && r.value == value
    {
      Length(value, Pixel)
    }

    static function Pct(value: real): (r: Length)
      ensures r.lengthType.CssUnit() == "%" && r.value == value
    {
      Length(value, Percentage)
    }

    static function Em(value: real): (r: Length)
      ensures r.lengthType.CssUnit() == "em" && r.value == value
    {
      Length(value, LengthType.Em)
    }
  }

  /** Reads the unit back from the end of a display string. */
  function UnitOf(s: string): (t: Option<LengthType>)
    ensures t.Some? ==> |t.value.CssUnit()| <= |s| && s[|s| - |t.value.CssUnit()|..] == t.value.CssUnit()
  {
    if |s| >= 2 && s[|s| - 2..] == "px" then Some(Pixel)
    else if |s| >= 1 && s[|s| - 1..] == "%" then Some(Percentage)
    else if |s| >= 2 && s[|s| - 2..] == "em" then Some(LengthType.Em)
    else None
  }

  /** The unit of a length can always be read back from its display string,
      whatever the number's string form is. */
  lemma {:induction false} UnitOfToString(l: Length, numberToString: real -> string)
    ensures UnitOf(l.ToString(numberToString)) == Some(l.lengthType)
  {
    var s := l.ToString(numberToString);
    var n := |numberToString(l.value)|;
    assert s[n..] == l.lengthType.CssUnit();
    match l.lengthType
    case Pixel =>
      assert s[|s| - 2..] == s[n..];
    case Percentage =>
      assert s[|s| - 1..] == s[n..];
      if |s| >= 2 {
        assert s[|s| - 2..][1] == s[|s| - 1] == '%';
      }
    case Em =>
      assert s[|s| - 2..] == s[n..];
      assert s[|s| - 2..][1] == s[|s| - 1] == 'm';
  }

  /** Adding and then subtracting the same length gives back the original. */
  lemma AddThenSubtract(a: Length, b: Length)
    requires a.lengthType == b.lengthType
    ensures a.Add(b).Ok? && a.Add(b).value.Subtract(b) == Ok(a)
  {
  }

  /** Addition is commutative, including which operand pairs it refuses. */
  lemma AddCommutes(a: Length, b: Length)
    ensures a.Add(b) == b.Add(a)
  {
  }

  /** Scaling distributes over a sum. */
  lemma MultiplyDistributesOverAdd(a: Length, b: Length, k: real)
    requires a.lengthType == b.lengthType
    ensures a.Add(b).Ok? && a.Multiply(k).Add(b.Multiply(k)) == Ok(a.Add(b).value.Multiply(k))
  {
    var sum := a.Multiply(k).Add(b.Multiply(k));
    assert a.value * k + b.value * k == (a.value + b.value) * k;
    assert sum.value == a.Add(b).value.Multiply(k);
  }

  /** Text metrics; any of the three may be absent. */
  datatype Text = Text(fontSize: Option<Length>, lines: Option<real>, lineHeight: Option<Length>)

  /** The size of the element being centered. */
  datatype Content = Content(width: Option<Length>, height: Option<Length>, text: Option<Text>)

  /** Content sized by text (the source's static `Content.text`): a single
      line is as tall as its font size; several lines are as tall as the line
      height times the count; otherwise the height is unknown. The width is
      never known. */
  function TextContent(fontSize: Option<Length>, lines: Option<real>, lineHeight: Option<Length>): (c: Content)
    ensures c.width == None
    ensures c.text == Some(Text(fontSize, lines, lineHeight))
    ensures lines == Some(1.0) && fontSize.Some? ==> c.height == fontSize
    ensures lines.Some? && lines.value > 1.0 && lineHeight.Some? ==>
              && c.height.Some?
              && c.height.value.lengthType == lineHeight.value.lengthType
              && c.height.value.value == lineHeight.value.value * lines.value
    ensures c.height.Some? <==>
              (lines == Some(1.0) && fontSize.Some?) || (lines.Some? && lines.value > 1.0 && lineHeight.Some?)
  {
    Content(None, TextHeight(fontSize, lines, lineHeight), Some(Text(fontSize, lines, lineHeight)))
  }

  /** The height rule of `TextContent` (the source's `Content.text`): the
      single-line rule is tried first, then the several-lines rule. */
  function TextHeight(fontSize: Option<Length>, lines: Option<real>, lineHeight: Option<Length>): (h: Option<Length>)
    ensures lines == Some(1.0) && fontSize.Some? ==> h == fontSize
    ensures lines.Some? && lines.value > 1.0 && lineHeight.Some? ==>
              && h.Some?
              && h.value.lengthType == lineHeight.value.lengthType
              && h.value.value == lineHeight.value.value * lines.value
    ensures h.Some? <==>
              (lines == Some(1.0) && fontSize.Some?) || (lines.Some? && lines.value > 1.0 && lineHeight.Some?)
  {
    if lines == Some(1.0) && fontSize.Some? then
      Some(Length(fontSize.value.value, fontSize.value.lengthType))
    // `lines.value != 0.0` mirrors the source's truthiness test on `lines`
    else if lines.Some? && lines.value != 0.0 && lines.value > 1.0 && lineHeight.Some? then
      Some(Length(lineHeight.value.value * lines.value, lineHeight.value.lengthType))
    else
      None
  }

  /** `n` lines of the given height stacked by repeated addition. */
  function StackLines(lineHeight: Length, n: nat): (r: Length)
    ensures r.lengthType == lineHeight.lengthType
  {
    if n == 0 then Length(0.0, lineHeight.lengthType)
    else StackLines(lineHeight, n - 1).Add(lineHeight).value
  }

  lemma {:induction false} StackLinesIsMultiply(lineHeight: Length, n: nat)
    ensures StackLines(lineHeight, n) == lineHeight.Multiply(n as real)
  {
    if n > 0 {
      StackLinesIsMultiply(lineHeight, n - 1);
      assert lineHeight.value * ((n - 1) as real) + lineHeight.value == lineHeight.value * (n as real);
    }
  }

  /** The height derived for a whole number of lines is the height of that
      many lines stacked, whatever the font size is. */
  lemma {:induction false} TextHeightStacksLines(fontSize: Option<Length>, n: nat, lineHeight: Length)
    requires n > 1
    ensures TextContent(fontSize, Some(n as real), Some(lineHeight)).height == Some(StackLines(lineHeight, n))
  {
    StackLinesIsMultiply(lineHeight, n);
    var h := TextContent(fontSize, Some(n as real), Some(lineHeight)).height;
    assert h.Some? && h.value == lineHeight.Multiply(n as real);
  }

  /** A single line takes its height from the font size, whatever the line height is. */
  lemma SingleLineIgnoresLineHeight(fontSize: Length, h1: Option<Length>, h2: Option<Length>)
    ensures TextContent(Some(fontSize), Some(1.0), h1).height
         == TextContent(Some(fontSize), Some(1.0), h2).height
         == Some(fontSize)
  {
  }

  /** The box content is centered within; it carries no logic. */
  datatype Container = Container(width: Option<Length>, height: Option<Length>)

  datatype HorizontalAlignment = Left | Center | Right

  datatype VerticalAlignment = Top | Middle | Bottom

  /** A browser with its known versions, oldest first. */
  datatype Browser = Browser(name: string, shortName: string, versions: seq<string>)

  /** The one browser of the catalog. */
  const IE: Browser := Browser("Internet Explorer", "IE", ["5.5", "6", "7", "8", "9", "10", "11"])

  /** JavaScript's Array.prototype.indexOf: the first position of `x`, or -1. */
  function IndexOf(s: seq<string>, x: string): (i: int)
    ensures -1 <= i < |s|
    ensures i == -1 <==> x !in s
    ensures 0 <= i ==> s[i] == x && x !in s[..i]
  {
    if s == [] then -1
    else if s[0] == x then 0
    else
      var j := IndexOf(s[1..], x);
      assert s[1..][..j + 1] == s[..j + 2][1..] || j == -1;
      if j == -1 then -1 else j + 1
  }

  /** "Support `browser` from `minVersion` on". */
  datatype BrowserSupport = BrowserSupport(browser: Browser, minVersion: string)

  /** The validating constructor: refused unless the version is one the
      browser is known to have. */
  function NewBrowserSupport(browser: Browser, minVersion: string): (r: Result<BrowserSupport, Error>)
    ensures r.Ok? <==> minVersion in browser.versions
    ensures r.Ok? ==> r.value.browser == browser && r.value.minVersion == minVersion
    ensures r.Err? ==> r.error == InvalidVersion(minVersion, browser.name)
  {
    if IndexOf(browser.versions, minVersion) != -1 then Ok(BrowserSupport(browser, minVersion))
    else Err(InvalidVersion(minVersion, browser.name))
  }

  /** The catalog entry for Internet Explorer, and the versions a record for
      it may name: exactly the seven of the catalog. */
  lemma IEVersions(v: string)
    ensures IE.name == "Internet Explorer" && IE.shortName == "IE"
    ensures IE.versions == ["5.5", "6", "7", "8", "9", "10", "11"]
    ensures NewBrowserSupport(IE, v).Ok? <==> v in {"5.5", "6", "7", "8", "9", "10", "11"}
  {
  }
}
