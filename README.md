# Centering options and browser-support list, in Dafny

This project models the option model of a tool that writes CSS for centering
an element, and the list of minimum browser versions its user interface
keeps. Both are proved correct against their own specifications.

- `Options` (`options.dfy`) models `js/how/Options.js`. It covers:
  - lengths tagged with a unit (`px`, `%`, `em`) and their arithmetic; adding
    or subtracting two different units is refused;
  - text metrics, and the content box whose height is derived from them;
  - the container box and the two alignment enumerations;
  - the browser catalog (Internet Explorer, versions 5.5 to 11);
  - the validating `BrowserSupport` constructor, which refuses a version
    that is not in the browser's list.
- `BrowserSupportComponent` (`browser_support_component.dfy`) models the
  state of `js/components/BrowserSupportComponent.js`. The class `Component`
  holds the list of records. `HandleBrowserSupportChange` walks the list with
  an index, exactly as the change handler does:
  - the first record for the chosen browser is removed ("None") or has its
    minimum version overwritten;
  - with no such record, a new validated record is appended.
  The method is proved against the function `ApplyChange`. Lemmas about
  `ApplyChange` prove the following:
  - when no browser has two records, the list read as a map from browser
    to version (`MinVersions`) is updated like a map;
  - "at most one record per browser" is preserved;
  - records of other browsers keep their order;
  - the three-step add, update and remove scenario behaves as expected.
- `Wrappers` (`wrappers.dfy`) holds `Option` (for `null`) and `Result` (for a
  thrown exception).

The source's singleton objects (`LengthType.PIXEL`, `Browser.IE`) are compared
by identity. They become datatype values compared by equality. A JavaScript
`number` becomes a `real`.

## Model

| member | source | states |
|---|---|---|
| `Options.LengthType.CssUnit` | js/how/Options.js:13-24 | every unit's token is non-empty; which token belongs to which unit is stated by `AllTypes`, `Px`, `Pct` and `Em` |
| `Options.CssUnitInjective` | js/how/Options.js:22-24 | two units have the same token exactly when they are the same unit |
| `Options.LengthType.AllTypes` | js/how/Options.js:26-30 | the list holds three distinct units, with the tokens `px`, `%`, `em` in that order |
| `Options.AllTypesComplete` | js/how/Options.js:26-30 | every unit appears in the list |
| `Options.Length.Multiply` | js/how/Options.js:41-43 | scaling never fails; it keeps the unit and multiplies the value |
| `Options.Length.Add` | js/how/Options.js:45-50 | succeeds exactly when the units agree, otherwise fails with a type mismatch; the result has the shared unit and the sum of the values |
| `Options.Length.Subtract` | js/how/Options.js:52-57 | succeeds exactly when the units agree, otherwise fails with a type mismatch; the result has the shared unit and the difference of the values |
| `Options.AddThenSubtract` | js/how/Options.js:45-57 | with equal units, `a.add(b).subtract(b)` gives back `a` |
| `Options.AddCommutes` | js/how/Options.js:45-50 | `a.add(b)` and `b.add(a)` agree, in success and in failure |
| `Options.MultiplyDistributesOverAdd` | js/how/Options.js:41-50 | scaling a sum equals adding the scaled lengths |
| `Options.Length.ToString` | js/how/Options.js:59-61 | the display string is the number's string form followed by the unit token |
| `Options.UnitOfToString` | js/how/Options.js:59-61 | the unit can be read back from the end of any display string, whatever the number's string form |
| `Options.Length.Px` | js/how/Options.js:63-65 | gives a length in `px` with the given value |
| `Options.Length.Pct` | js/how/Options.js:67-69 | gives a length in `%` with the given value |
| `Options.Length.Em` | js/how/Options.js:71-73 | gives a length in `em` with the given value |
| `Options.TextContent` | js/how/Options.js:105-113 | width is absent; `text` holds the three inputs; one line with a font size gives the font size; more than one line with a line height gives line height times lines, in its unit; a height exists exactly in those two cases |
| `Options.TextHeight` | js/how/Options.js:106-111 | one line with a font size gives the font size; more than one line with a line height gives line height times lines, in its unit; a height exists exactly in those two cases |
| `Options.SingleLineIgnoresLineHeight` | js/how/Options.js:107-108 | with one line and a font size, the line height has no effect on the height (the one-line and several-lines tests exclude each other) |
| `Options.TextHeightStacksLines` | js/how/Options.js:109-110 | for a whole number of lines above one, the derived height equals that many line heights added together with `add` |
| `Options.StackLines` | js/how/Options.js:109-110 | repeated addition of a line height never mixes units, so it never fails |
| `Options.IndexOf` | js/how/Options.js:177-178 | -1 exactly when the version is absent, otherwise the first position holding it |
| `Options.NewBrowserSupport` | js/how/Options.js:176-186 | succeeds exactly when the version is in the browser's list, with fields equal to the inputs; otherwise fails with the version and the browser's name |
| `Options.IEVersions` | js/how/Options.js:158-170 | the catalog constant `IE` is named "Internet Explorer" (short name "IE") with versions 5.5, 6, 7, 8, 9, 10, 11 in that order, and exactly those versions are accepted for it |
| `BrowserSupportComponent.FirstMatch` | js/components/BrowserSupportComponent.js:28-30 | finds the first record for the browser, or reports that no record is for it |
| `BrowserSupportComponent.MinVersionsLookup` | js/components/BrowserSupportComponent.js:28-30 | reading the list as a map, the browser is a key exactly when it has a record, and its value is the first record's version |
| `BrowserSupportComponent.ApplyChange` | js/components/BrowserSupportComponent.js:28-46 | the list after a choice: it fails exactly for an untracked browser with a version missing from its list, with that version and the browser's name; removal shortens the list by one and update keeps its length; for an untracked browser, "None" leaves the list as it was and a version appends the new record at the end |
| `BrowserSupportComponent.ChangeTouchesOnlyFirstMatch` | js/components/BrowserSupportComponent.js:28-37 | for a tracked browser the choice succeeds and changes only the first record for it: other records, later ones of the same browser included, stay in place (one place earlier after a removal) |
| `BrowserSupportComponent.DeselectKeepsLaterDuplicate` | js/components/BrowserSupportComponent.js:28-37 | "None" on [(IE, 8), (IE, 9)] removes only the first record, giving [(IE, 9)] |
| `BrowserSupportComponent.RemoveActsOnMinVersions` | js/components/BrowserSupportComponent.js:31-32 | removing a browser's only record deletes its key from the map view |
| `BrowserSupportComponent.UpdateActsOnMinVersions` | js/components/BrowserSupportComponent.js:34 | overwriting a browser's first record sets its key in the map view |
| `BrowserSupportComponent.AppendActsOnMinVersions` | js/components/BrowserSupportComponent.js:41-44 | appending a record for an untracked browser adds its key to the map view |
| `BrowserSupportComponent.ChangeActsOnMinVersions` | js/components/BrowserSupportComponent.js:28-46 | with at most one record per browser, "None" deletes the browser from the map view, and a version sets it |
| `BrowserSupportComponent.ChangeKeepsAtMostOnePerBrowser` | js/components/BrowserSupportComponent.js:28-46 | at most one record per browser before a choice implies the same after it |
| `BrowserSupportComponent.ChangeKeepsOtherBrowsers` | js/components/BrowserSupportComponent.js:28-46 | records of other browsers are untouched and keep their relative order |
| `BrowserSupportComponent.ChangeKeepsAllValid` | js/components/BrowserSupportComponent.js:28-46 | every record's version stays in its browser's list when the chosen version is "None" or in the list |
| `BrowserSupportComponent.UpdateSkipsValidation` | js/components/BrowserSupportComponent.js:33-35 | overwriting a tracked record stores a version that the constructor would refuse |
| `BrowserSupportComponent.ScenarioSelectAdds` | js/components/BrowserSupportComponent.js:41-46 | picking IE 8 on an empty list gives the single record (IE, 8) |
| `BrowserSupportComponent.ScenarioReselectUpdates` | js/components/BrowserSupportComponent.js:29-37 | then picking IE 10 gives the single record (IE, 10) |
| `BrowserSupportComponent.ScenarioDeselectRemoves` | js/components/BrowserSupportComponent.js:29-37 | then picking "None" for IE gives the empty list |
| `BrowserSupportComponent.Component.constructor` | js/components/BrowserSupportComponent.js:10-15 | the list starts empty |
| `BrowserSupportComponent.Component.GetBrowserSupport` | js/components/BrowserSupportComponent.js:21-23 | returns the current list |
| `BrowserSupportComponent.Component.HandleBrowserSupportChange` | js/components/BrowserSupportComponent.js:25-47 | the new list is `ApplyChange` of the old one; when the constructor throws, the error is returned and the list is unchanged; at most one record per browser is preserved |

## Left out

- Rendering is not modelled: `render`, JSX, `RadioComponent`, `RadioListComponent`, `setState` and the component lifecycle. `setState` is taken to be a no-op over the list the handler has already changed.
- Numbers are exact `real`s, not IEEE doubles, so NaN, infinities and rounding are not modelled. `lines` is a `real` too, because the source compares a plain number with 1.
- `Length.ToString` takes JavaScript's `Number.prototype.toString` as a parameter. Its formatting is not modelled.
- The `invariant` library's message formatting is not modelled. Its failure is an `InvalidVersion` error carrying the version and the browser's name.
- A thrown exception is a returned error value: `Result` for `add`/`subtract` and the constructor, and `Option<Error>` for the change handler.
- Object identity (`===`) on units and browsers is datatype equality. Two distinct `Browser` objects with equal fields would differ in the source but are equal here. The catalog has only one browser.
- BrowserSupportComponent.Component.HandleBrowserSupportChange: records are values. The in-place write to `minVersion` replaces the list element. Anyone else holding the same record object, or the array returned by `getBrowserSupport`, would see that change in the source but not here.
- `Container`, `HorizontalAlignment` and `VerticalAlignment` are plain datatypes. They have no operations to prove.
- Flow type annotations and `module.exports` are not modelled.
