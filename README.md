# Dynamic UI Editor — configuration engine model

This project models the configuration engine of the Dynamic UI Editor, a
single React component. The engine has four parts. First, one configuration
object: a `layout` string and five sections (`typography`, `button`,
`gallery`, `general`, `stroke`) of scalar leaves. Second, a generic mutator
`set(path, v)` that overwrites one entry, addressed by a dotted path, in a
deep copy. Third, number fields that clamp what is typed into them. Fourth,
the start-up load, the import and the export of the configuration as JSON,
plus the choice between the two preview layouts and the few values those
layouts derive.

Configuration values are JSON values (`JsonValues.Json`: null, booleans,
integers, strings, arrays, objects). The configuration is a
`map<string, Json>`. The built-in two-level shape is one instance of that
type. An import can put any JSON value under any key, and the model keeps
that possibility.

Modules, one per part of the engine:

- `JsonValues` (json.dfy): the value type. It also holds the JavaScript
  conversions the engine relies on: `String(v)` (for the template literal
  and for property keys) and object spread `{...v}` of a parsed document.
- `Numbers` (numbers.dfy): `clamp`, `parseInt(text, 10)` and the number
  field rule `clamp(parseInt(text || 0, 10), min, max)`.
- `Schema` (schema.dfy): `defaultConfig`, `shadowMap`, the justify map and
  the storage key `"ui-cfg"`.
- `Paths` (paths.dfy): `path.split(".")`, the walk down the path and the
  write. `Assign` is the loop itself. `SetIn` is its specification.
- `Persistence` (persistence.dfy): the start-up load, the import merge, and
  the export file name and content.
- `Presenters` (presenters.dfy): the choice of layout presenter, the shadow
  class, the justify class and the clamped font sizes.
- `Editor` (editor.dfy): the component's state as a class. It has the
  configuration `cfg` and the browser storage `storage`. Its methods are
  the mutator, the number edits, reset and import. Its functions are preview
  and export. It also holds the number fields of the editor panel with their
  bounds.

Parameters stand in for I/O and for JSON text handling. Browser storage is
the `storage` field, which maps keys to text. The file chosen for import is
an `Option<string>` argument, with None meaning "no file selected". The
alert is the `alerted` result. `JSON.parse`, `JSON.stringify(v)` and
`JSON.stringify(v, null, 2)` are the three function fields of a
`Persistence.Codec`. The round-trip lemmas assume `Persistence.Faithful`:
parsing what either stringifier wrote gives back the value, and an object's
text is never empty.

The model follows the code as written:

- `set` does not clamp or validate the value it writes.
- Only the base size is clamped a second time, at its call site.
- All other numeric bounds come from the number fields alone.
- Import does not fill missing fields from the defaults, and it does not
  drop unknown top-level keys. A section named in the document replaces the
  whole section, so a partial section loses the fields it omits.
- Any string can become the layout. Every value other than `"layout1"`
  selects the second presenter.

## Model

| member | source | states |
|---|---|---|
| `Numbers.Clamp` | src/DynamicUiEditorDemo.jsx:4 | for lo ≤ hi the result lies in [lo, hi], equals n when n is already in range, is lo below and hi above; when lo > hi the result is hi |
| `Numbers.ClampIdempotent` | src/DynamicUiEditorDemo.jsx:4 | clamping a clamped value again changes nothing |
| `Numbers.ClampNested` | src/DynamicUiEditorDemo.jsx:355 | clamping to a range and then to a range inside it equals clamping to the inner range, so the second clamp of the base size is redundant |
| `Numbers.ParseIntOfIntToString` | src/DynamicUiEditorDemo.jsx:273 | parseInt of an integer's decimal text, followed by any tail that does not start with a digit, gives that integer back ("1.5" and "1e3" give 1) |
| `Numbers.ParseIntNoDigits` | src/DynamicUiEditorDemo.jsx:273 | parseInt gives NaN exactly when no digit follows the leading white space and one optional sign ("", "-", "a1", " +x9" are NaN; " -7px" is not) |
| `Numbers.IsJsWhiteSpace` | src/DynamicUiEditorDemo.jsx:273 | the characters parseInt skips are ECMAScript's white space and line terminators, and none of them is a digit or a sign |
| `Numbers.TrimStart` | src/DynamicUiEditorDemo.jsx:273 | after the skip the text is empty or starts with a character that is not white space, and it is no longer than before |
| `Numbers.TrimStartDropsWhiteSpace` | src/DynamicUiEditorDemo.jsx:273 | what the skip removes is a prefix made only of white space; the rest of the text is kept unchanged |
| `Numbers.TrimStartOfWhiteSpace` | src/DynamicUiEditorDemo.jsx:273 | white space in front of a text that does not start with white space is skipped entirely |
| `Numbers.DigitPrefix` | src/DynamicUiEditorDemo.jsx:273 | the scan for radix 10 keeps only decimal digits (no "0x" prefix) |
| `Numbers.ParseDigits` | src/DynamicUiEditorDemo.jsx:273 | the value of the digit run is never negative |
| `Numbers.Unsigned` | src/DynamicUiEditorDemo.jsx:273 | one leading "+" or "-" is dropped, and nothing else |
| `Numbers.ParseSigned` | src/DynamicUiEditorDemo.jsx:273 | a negative result means the text started with "-", a positive one that it did not |
| `Numbers.ParseSignedDefined` | src/DynamicUiEditorDemo.jsx:273 | a number results exactly when a digit follows the optional sign |
| `Numbers.ParseSignedOfSign` | src/DynamicUiEditorDemo.jsx:273 | a "-" negates what the digits after it give, and a "+" keeps it |
| `Numbers.ParseDigitsValue` | src/DynamicUiEditorDemo.jsx:273 | a digit run followed by a tail that does not start with a digit has the value of the run, leading zeros included |
| `Numbers.ParseSignedValue` | src/DynamicUiEditorDemo.jsx:273 | "-" or "+" before such a digit run gives minus or plus its value |
| `Numbers.ParseInt` | src/DynamicUiEditorDemo.jsx:273 | `parseInt(text, 10)`: a negative result means the first character after the white space is "-", a positive one that it is not |
| `Numbers.ParseIntOfDisplayString` | src/DynamicUiEditorDemo.jsx:273 | parseInt of the model's String(n) gives back n; in JavaScript this holds only for numbers below 1e21 in magnitude |
| `Numbers.ParseIntValue` | src/DynamicUiEditorDemo.jsx:273 | for any white space, optional sign, digit run and tail that does not start with a digit, parseInt gives the signed value of the run (" 7", "+7", "007" and "-12px" give 7, 7, 7 and -12) |
| `Numbers.NumberInputEmit` | src/DynamicUiEditorDemo.jsx:267-279 | empty text emits clamp(0, min, max); every emitted integer lies in [min, max]; NaN is emitted exactly when non-empty text has no leading integer |
| `Numbers.NumberInputOfTypedInt` | src/DynamicUiEditorDemo.jsx:273 | typing the decimal text of n emits n clamped to [min, max] |
| `Numbers.DigitPrefixOfDigits` | src/DynamicUiEditorDemo.jsx:273 | parseInt's scan takes all the digits of a digit run and stops at the first non-digit |
| `JsonValues.DigitsValueOfNatToString` | src/DynamicUiEditorDemo.jsx:475 | the decimal text of a number written into a string reads back as that number |
| `JsonValues.NatToStringInjective` | src/DynamicUiEditorDemo.jsx:488 | different indices give different property names, so spreading an array-like document keeps every element |
| `JsonValues.IndexMapSpec` | src/DynamicUiEditorDemo.jsx:488 | spreading an array or a string gives the property "i" the i-th element for every index i, and no other property |
| `JsonValues.Spread` | src/DynamicUiEditorDemo.jsx:488 | `{...doc}` copies an object's fields, an array's or a string's indexed elements, and nothing from null, a boolean or a number |
| `JsonValues.IntToString` | src/DynamicUiEditorDemo.jsx:475 | the model's String(n) of an integer is all its decimal digits, with a "-" in front exactly when it is negative; JavaScript agrees up to 2^53 |
| `JsonValues.ToDisplayString` | src/DynamicUiEditorDemo.jsx:475 | String(v): a string converts to itself and an empty array to "" |
| `JsonValues.DisplayStringOfSingleton` | src/DynamicUiEditorDemo.jsx:62 | a one-element array converts like its element, and a null element as "" |
| `JsonValues.JsString` | src/DynamicUiEditorDemo.jsx:475 | String(v) of a value that may be undefined, as written by the template literal and used by the lookups `obj[v]`: undefined gives "undefined", a string gives itself |
| `JsonValues.JsStringOfNumber` | src/DynamicUiEditorDemo.jsx:64 | a number looks up the same property as its decimal text |
| `JsonValues.Member` | src/DynamicUiEditorDemo.jsx:62 | `v.key` on a non-null value is the object's field when present, undefined otherwise |
| `Schema.DefaultConfigShape` | src/DynamicUiEditorDemo.jsx:12-42 | the built-in configuration has exactly the six top-level keys; layout is "layout1"; every other key holds a section object |
| `Paths.Split` | src/DynamicUiEditorDemo.jsx:302 | split yields at least one piece and no piece contains the separator |
| `Paths.JoinSplit` | src/DynamicUiEditorDemo.jsx:302 | joining the pieces of a split with the separator gives back the path |
| `Paths.SplitAfterPiece` | src/DynamicUiEditorDemo.jsx:302 | a leading run without separators becomes the start of the first piece |
| `Paths.SplitJoin` | src/DynamicUiEditorDemo.jsx:302 | splitting the join of separator-free pieces gives back the pieces |
| `Paths.SplitDotted` | src/DynamicUiEditorDemo.jsx:343 | "section.field" splits into exactly [section, field] when neither part has a dot |
| `Paths.SplitPlain` | src/DynamicUiEditorDemo.jsx:327 | a name without a dot, such as "layout", is a one-segment path |
| `Paths.SetIn` | src/DynamicUiEditorDemo.jsx:299-307 | the write adds at most the first segment's key at top level and keeps every other top-level entry |
| `Paths.SetThenGet` | src/DynamicUiEditorDemo.jsx:305 | after the write, reading the addressed path gives exactly v |
| `Paths.SetFrame` | src/DynamicUiEditorDemo.jsx:301-306 | the write changes nothing at any path that parts from the written one |
| `Paths.SetTopLevel` | src/DynamicUiEditorDemo.jsx:327 | a one-segment path is always walkable and replaces just that top-level entry |
| `Paths.SetSectionField` | src/DynamicUiEditorDemo.jsx:304-305 | a two-segment path into a section object holds v at that field; every other field of the section and every other top-level entry keep their values; no key disappears |
| `Paths.ChainWalkable` | src/DynamicUiEditorDemo.jsx:304 | every container met on the walk can be walked the rest of the way |
| `Paths.SetInStep` | src/DynamicUiEditorDemo.jsx:305 | writing at a longer path is writing inside the object under its first segment |
| `Paths.Assign` | src/DynamicUiEditorDemo.jsx:301-306 | the clone, walk and write loop produces exactly SetIn of the previous configuration, which is left as it was |
| `Persistence.Overlay` | src/DynamicUiEditorDemo.jsx:455 | `{...base, ...over}` has the keys of both; a key of `over` takes over's whole value; other keys keep base's |
| `Persistence.Load` | src/DynamicUiEditorDemo.jsx:452-458 | no saved entry, an empty one or one that fails to parse yields exactly the default; every load has all six top-level keys |
| `Persistence.LoadOverlaysSaved` | src/DynamicUiEditorDemo.jsx:455 | a saved object's top-level keys are taken as saved, the default keys it lacks keep their defaults, and nothing inside a section is defaulted |
| `Persistence.LoadRoundTrip` | src/DynamicUiEditorDemo.jsx:464 | a saved configuration that has every default top-level key loads back as itself |
| `Persistence.Import` | src/DynamicUiEditorDemo.jsx:486-491 | fails (alert, state kept) exactly when parsing fails; otherwise the result keeps every previous key |
| `Persistence.ImportReplacesWholesale` | src/DynamicUiEditorDemo.jsx:488 | each top-level key of the document replaces that entry wholesale; keys absent from the document keep their values |
| `Persistence.ImportPartialSectionLosesFields` | src/DynamicUiEditorDemo.jsx:488 | a section named in the document loses every field the document omits |
| `Persistence.ImportScalarDocument` | src/DynamicUiEditorDemo.jsx:488 | importing a null, boolean or number document leaves the configuration unchanged |
| `Persistence.ExportFileName` | src/DynamicUiEditorDemo.jsx:475 | the name is "ui-config-" + layout + ".json", with the layout string between them |
| `Persistence.ExportFileNamesDiffer` | src/DynamicUiEditorDemo.jsx:475 | two different layout strings give two different file names |
| `Persistence.ExportContent` | src/DynamicUiEditorDemo.jsx:471 | the exported text parses back to the whole current configuration |
| `Persistence.ExportImportRoundTrip` | src/DynamicUiEditorDemo.jsx:471-488 | importing an exported configuration over one whose keys it covers reproduces it exactly |
| `Presenters.SelectPresenter` | src/DynamicUiEditorDemo.jsx:496 | the first presenter exactly when layout is the string "layout1"; every other value, missing or unknown, gives the second |
| `Presenters.SelectPresenterReadsOnlyLayout` | src/DynamicUiEditorDemo.jsx:496 | configurations with the same layout entry get the same presenter |
| `Presenters.ShadowClass` | src/DynamicUiEditorDemo.jsx:62 | a key of the shadow map gives its class; "none" and every unknown key give "" |
| `Presenters.ButtonShadow` | src/DynamicUiEditorDemo.jsx:155 | the sm/md/lg shadows of `cfg.button.shadow` give their classes; a button entry without a shadow field gives "" |
| `Presenters.ShadowClassOfNames` | src/DynamicUiEditorDemo.jsx:5-10 | none, sm, md, lg give "", shadow, shadow-md, shadow-lg; undefined gives "" |
| `Presenters.ShadowClassOfSingleton` | src/DynamicUiEditorDemo.jsx:62 | a shadow stored as a one-element array such as ["lg"] selects the class of its element |
| `Presenters.Justify` | src/DynamicUiEditorDemo.jsx:63-64 | left/center/right give their justify class; anything else is undefined |
| `Presenters.JustifyContainerClass` | src/DynamicUiEditorDemo.jsx:97 | the container class is "flex " plus the justify class, or "flex undefined" for an unknown alignment |
| `Presenters.FontSize` | src/DynamicUiEditorDemo.jsx:90 | every heading and body size lies in [10, 60] for any integer base size, and equals size + offset when that is in range |
| `Presenters.FontSizeMonotonic` | src/DynamicUiEditorDemo.jsx:188 | a larger base size never gives a smaller font size |
| `Presenters.DefaultFontSizes` | src/DynamicUiEditorDemo.jsx:185 | at the default size 20 the sizes are 28 and 26 (headings), 20 (body and menu title) and 18 (menu items) |
| `Editor.FieldSection` | src/DynamicUiEditorDemo.jsx:352-442 | each number field edits a top-level section other than layout, whose name has no dot |
| `Editor.FieldLeaf` | src/DynamicUiEditorDemo.jsx:352-442 | each number field's leaf is a non-empty name without a dot, so its path has exactly two segments |
| `Editor.FieldMin` | src/DynamicUiEditorDemo.jsx:352-442 | every number field's lower bound is at least 0 (400 for the weight, 10 for the size) |
| `Editor.DefaultFieldsInRange` | src/DynamicUiEditorDemo.jsx:12-42 | in the built-in configuration every number field's leaf exists and holds a number within that field's bounds |
| `Editor.FieldPath` | src/DynamicUiEditorDemo.jsx:352 | each number field's path splits into a top-level section and its leaf |
| `Editor.FieldMax` | src/DynamicUiEditorDemo.jsx:352-442 | every number field's min is at most its max (900, 60, 48, 6 and 64 as upper bounds) |
| `Editor.StoredNumber` | src/DynamicUiEditorDemo.jsx:352-355 | every stored number lies in its field's [min, max]; for the base size that is [10, 60]; an empty text stores the clamped 0 |
| `Editor.StoredNumberOfTypedInt` | src/DynamicUiEditorDemo.jsx:273 | typing n into any number field stores n clamped to the field's range |
| `Editor.WeightIsNotStepped` | src/DynamicUiEditorDemo.jsx:352 | a weight of 450 is stored as 450; step 100 is not enforced |
| `Editor.SizeIsClamped` | src/DynamicUiEditorDemo.jsx:355 | a base size typed as 80 is stored as 60 |
| `Editor.EditorState.constructor` | src/DynamicUiEditorDemo.jsx:452-465 | the state starts from the load rule on the "ui-cfg" entry, and the save effect writes it back |
| `Editor.EditorState.Set` | src/DynamicUiEditorDemo.jsx:299-308 | the new configuration is SetIn of the old one, and the "ui-cfg" entry is its serialization |
| `Editor.EditorState.EditNumber` | src/DynamicUiEditorDemo.jsx:352-442 | a number edit writes the stored number, which lies in [min, max], at the field's leaf and saves |
| `Editor.EditorState.Reset` | src/DynamicUiEditorDemo.jsx:469 | the configuration becomes the default whatever it was, and the save is of the default, so resetting twice equals resetting once |
| `Editor.EditorState.ImportFile` | src/DynamicUiEditorDemo.jsx:481-494 | no file changes nothing; a parse failure alerts and changes nothing; otherwise the state is the import merge, and it is saved |
| `Editor.EditorState.Preview` | src/DynamicUiEditorDemo.jsx:496 | the first presenter exactly when the current layout is "layout1" |
| `Editor.EditorState.ExportName` | src/DynamicUiEditorDemo.jsx:475 | the export name embeds the current layout string |
| `Editor.EditorState.Export` | src/DynamicUiEditorDemo.jsx:471 | the exported text parses back to the current configuration |
| `Editor.SessionStart` | src/DynamicUiEditorDemo.jsx:452-459 | with nothing saved the editor starts from the built-in configuration |
| `Editor.SessionEditSize` | src/DynamicUiEditorDemo.jsx:355 | from the default, typing 80 as the base size gives the default with typography.size 60 and nothing else changed |
| `Editor.SessionExport` | src/DynamicUiEditorDemo.jsx:475 | under layout1 the export is named "ui-config-layout1.json" |
| `Editor.SessionSwitchLayout` | src/DynamicUiEditorDemo.jsx:327 | setting the layout to "layout2" selects the second presenter, keeps the keys and changes no other top-level entry |
| `Editor.SessionResetTwice` | src/DynamicUiEditorDemo.jsx:469 | two resets leave the default configuration and the same storage as one reset would |

The class invariant `Editor.EditorState.Valid` states two things. All six
default top-level keys are present, because no operation removes a key.
The "ui-cfg" storage entry is the serialization of the current
configuration. The constructor and every method keep it.
`Editor.SessionSwitchLayout` and `Editor.SessionResetTwice` are client
methods. Their postconditions, proved from the contracts of the methods
they call, state the following. Switching the layout selects the second
presenter and changes no other top-level entry. A second reset leaves the
same state as the first.

## Left out

- The JSX and everything in it is not modelled. This covers the layout
  markup, `PlaceholderImage`, `Field`, `ColorInput`, `Segmented`, the select
  boxes, the Tailwind class strings and the image lists. The colour,
  select and segmented widgets only emit a string `v` for `set(path, v)`,
  which is `Editor.EditorState.Set`.
- Browser I/O is not modelled: `Blob`, `URL.createObjectURL`, the anchor
  click, `FileReader`'s asynchronous read and `alert` are outside the
  model. Export gives the file name and text; import takes the file's text.
- JSON text is not modelled. `Codec` stands for parsing and printing, so
  the model says nothing about formatting or about the two-space pretty
  printing.
- JSON numbers are integers only. Fractional numbers, floating point and
  `-0` are not modelled.
- JsonValues.IntToString: model integers are unbounded and are always
  written with all their digits. JavaScript numbers are doubles. They hold
  integers exactly only up to 2^53. Above that, `String` writes the
  shortest digits that read back as the same double, so `String(2**60)`
  is "1152921504606847000". From 1e21 up it uses exponent form, so
  `String(1e21)` is "1e+21". An imported numeric layout of 1e21 therefore
  names the export "ui-config-1e+21.json" in JavaScript, and 22 digits in
  the model. The same limit holds for `Numbers.ParseDigitsValue`,
  `Numbers.ParseSignedValue` and `Numbers.ParseIntValue`. They give the
  exact value of any digit run, while above 2^53 JavaScript's `parseInt`
  gives the nearest double: `parseInt("9007199254740993")` is
  9007199254740992. Stored numbers are not affected, because every number
  field clamps its value to at most 900.
- Numbers.ParseIntOfDisplayString: holds in JavaScript only for integers
  below 1e21 in magnitude, for the reason above. `parseInt("1e+21")` is 1.
- Editor.EditorState.EditNumber: requires that the number field not emit
  NaN. The NaN that `parseInt` gives for text without digits, and its
  passage through `Math.max`/`Math.min` into the configuration, are
  floating-point behaviour that is not modelled.
- Editor.EditorState.Set and Editor.EditorState.EditNumber: require the
  path to be walkable. For EditNumber this is the requirement that the
  field's section holds an object. That is,
  every segment but the last names an object. Other paths are not
  modelled. In JavaScript a walk that reaches a missing entry or a null
  throws, and so does a write onto a string, number or boolean in the
  module's strict mode; a section replaced by a scalar through an import
  is one example. An array as the last container does not throw: it takes
  the write as a non-index property, which `JSON.stringify` drops when
  the save effect runs (line 464), so the edit is lost from storage.
  `Paths.Assign` carries the same requirement.
- Paths.Assign: the in-place write through `cur`, seen by every enclosing
  object by aliasing, is modelled on values. The containers on the path
  are rebuilt, which gives the same result. `structuredClone`'s copy is
  implicit in value semantics.
- Presenters.FontSize: takes an integer size. JavaScript's coercions for
  a non-number `typography.size` (string concatenation in `size + 8`) are
  not modelled.
- Editor.EditorState.ImportFile: a document that parses is always merged
  and saved in the model, even one that sets a section to null, such as
  `{"button": null}`. In JavaScript the merge at line 488 is queued, but
  the next render throws on the null section. The reads that throw are
  `cfg.button.shadow` (lines 62 and 155), `cfg.button.radius` (line 365),
  `cfg.typography.family` (lines 83 and 342), `cfg.gallery.align` (line
  64), `cfg.general.sectionBg` (line 79) and `cfg.stroke.weight` (line
  80). Nothing catches the error, so the editor unmounts. The save effect
  (lines 463-465) never runs for that state, and "ui-cfg" keeps the
  previous configuration. The crash is not modelled.
- Presenters.ButtonShadow: requires a button entry that is not null,
  because `cfg.button.shadow` throws on null. In JavaScript that throw
  crashes the render of a configuration whose button section an import
  set to null (see the ImportFile line). The model leaves such a
  configuration without a shadow class.
- Presenters.ShadowClass: property names inherited from `Object.prototype`
  (such as "toString" or "constructor") are treated as unknown keys and
  give "". In JavaScript they give a function, which is truthy, so the
  class attribute becomes that function's source text.
- Presenters.Justify: inherited names such as "toString" are treated as
  unknown and give undefined. In JavaScript `justifyMap["toString"]` is a
  function.
- Presenters.JustifyContainerClass: for an inherited name the model gives
  "flex undefined". JavaScript gives "flex " followed by the function's
  source text, such as "flex function toString() { [native code] }".
- JsonValues.Spread: a string is split into Unicode scalar values, the
  characters of Dafny's `string`. JavaScript spread copies one property
  per UTF-16 code unit. So a document that is the one-character string
  "😀" adds the property "0" holding the whole character in the model.
  In JavaScript it adds "0" and "1", holding its two surrogate halves.
  The lone surrogates that `JSON.parse` can return from `\uD83D` escapes
  cannot be represented at all. The same applies to the load at line 455.
- JsonValues.Member: the model reads only named fields of objects. A
  string's `length` and index properties are not modelled, because the
  engine never reads them.
- React machinery is not modelled: `useState` updater queuing, `useMemo`
  identity, and the timing and coalescing of `useEffect`. The save effect
  is modelled as a save right after each change. React skips the effect
  when the same object is set again, but under `Valid` the entry already
  holds that object then.
- A `getItem` or `setItem` call that throws is not modelled:
  `localStorage` disabled, or quota exceeded. A throwing `getItem` leads
  to the default, which is the same as a missing entry.
