# SQL Table canvas component — a Dafny model

This project models the SQL Table widget of the canvas dashboard builder: a component whose
spec names a connector and a raw SQL query, with an optional row limit, a display mode (plain
table or Vega-Lite chart), an optional chart preset and an optional Vega-Lite JSON spec.

It covers:

- the spec record (`SqlTableSpec`) and the untyped property object it is at run time
  (`types.dfy`, module `SqlTableTypes`);
- ECMAScript's `String.prototype.trim`, which the validator relies on, with whitespace as
  ECMA-262 defines it (sections 12.2 "White Space" and 12.3 "Line Terminators") (`js_string.dfy`,
  module `JsString`);
- the component itself (`sql_table.dfy`, module `SqlTable`): the five-entry `VEGA_PRESETS`
  table and the preset options offered in the inspector, the constructor's default spec,
  `newComponentSpec`, the size constants, the validator `isValid`, and the `updateProperty`
  override.

The override is modelled twice, once as a value and once as the imperative code. The value is
`UpdateWrites`, the ordered list of writes the override hands to the base class. The code is the
method `SqlTableComponent.UpdateProperty`. It calls the base write once, or twice with an early
return, and its postcondition ties the resulting base-write log and spec to `UpdateWrites`. The
base class is not part of this model. Its `updateProperty` is taken to overwrite one property of
the spec held as a `map<Key, Value>` (`ApplyWrites` applies a list of writes). Under that
reading, the lemmas prove four things. An update is idempotent. It touches nothing but the
property written and `vega_lite_spec`. Choosing "Custom" leaves `vega_lite_spec` alone. Every
other option of the select fills it in.

Run-time values are `Value` (`Undefined | Str | Num | Bool`). This lets the model express the
source's `typeof … === "string"` checks and the JavaScript truthiness test on `value`. Numbers
are `real`; NaN is not modelled. Characters are Unicode scalar values rather than UTF-16 code
units. Every character `trim` removes lies in the Basic Multilingual Plane, so this makes no
difference to trimming.

## Model

| member | source | states |
|---|---|---|
| `JsString.IsWhitespace` | web-common/src/features/canvas/components/sql-table/index.ts:98 | no contract: the characters `trim` removes, as ECMA-262 defines WhiteSpace and LineTerminator: U+0009, U+000B, U+000C, U+FEFF, the space separators U+0020, U+00A0, U+1680, U+2000–U+200A, U+202F, U+205F, U+3000, and U+000A, U+000D, U+2028, U+2029 |
| `JsString.TrimStart` | web-common/src/features/canvas/components/sql-table/index.ts:98 | the result is the suffix of the input after its leading whitespace, and starts with a non-whitespace character when non-empty |
| `JsString.TrimEnd` | web-common/src/features/canvas/components/sql-table/index.ts:98 | the result is the prefix of the input before its trailing whitespace, and ends with a non-whitespace character when non-empty |
| `JsString.Trim` | web-common/src/features/canvas/components/sql-table/index.ts:98 | the input is the trimmed text with whitespace-only text before and after it, and the trimmed text neither starts nor ends with whitespace |
| `JsString.TrimEmptyIff` | web-common/src/features/canvas/components/sql-table/index.ts:98 | `s.trim()` is non-empty exactly when `s` holds a non-whitespace character |
| `SqlTableTypes.ToProps` | web-common/src/features/canvas/components/types.ts:65-72 | the run-time object of a spec always holds `connector` and `sql` as strings, holds an optional property exactly when the spec sets it, and then holds the value the spec gives it |
| `SqlTableTypes.Truthy` | web-common/src/features/canvas/components/sql-table/index.ts:83 | no contract: JavaScript truthiness of a run-time value (an empty string, `undefined`, `false` and `0` are falsy), the `value &&` test of the override |
| `SqlTable.PresetName` | web-common/src/features/canvas/components/sql-table/index.ts:14-60 | no contract: the key each preset is stored under (`line`, `stacked_line`, `bar`, `pie`, `single_number`) |
| `SqlTable.LookupPreset` | web-common/src/features/canvas/components/sql-table/index.ts:14-60 | `VEGA_PRESETS[name]` finds a preset exactly when `name` is one of the five keys, and then finds the preset stored under that key |
| `SqlTable.PresetJson` | web-common/src/features/canvas/components/sql-table/index.ts:14-60 | no contract: one fixed JSON text per preset, the text `JSON.stringify(presetSpec, null, 2)` gives at index.ts:84-88 for the preset's object literal |
| `SqlTable.PresetOptionsMatchTable` | web-common/src/features/canvas/components/sql-table/index.ts:138-145 | every option but "Custom" names a key of `VEGA_PRESETS`; every key is offered; "Custom" (`""`) names none |
| `SqlTable.DefaultSizeFitsMinSize` | web-common/src/features/canvas/components/sql-table/index.ts:63-64 | the default size (6 by 8) is at least the minimum size (4 by 4) in width and height |
| `SqlTable.DefaultSpec` | web-common/src/features/canvas/components/sql-table/index.ts:70-76 | the constructor's default spec has a blank connector and query, a limit of 1000, no display type, preset or chart spec, and is not valid |
| `SqlTable.NewComponentSpec` | web-common/src/features/canvas/components/sql-table/index.ts:165-172 | the new-component spec has the empty connector and the query `SELECT 1 as example`, so its query is non-blank but it is not valid; its limit is 1000, it displays as a table, and it sets no other property |
| `SqlTable.IsValidProps` | web-common/src/features/canvas/components/sql-table/index.ts:95-102 | on the run-time object, valid exactly when `connector` and `sql` are both present, are strings, and each holds a non-whitespace character |
| `SqlTable.IsValid` | web-common/src/features/canvas/components/sql-table/index.ts:95-102 | a typed spec is valid exactly when its connector and its query each hold a non-whitespace character |
| `SqlTable.UpdateWrites` | web-common/src/features/canvas/components/sql-table/index.ts:81-93 | the first base write is always the given key and value; a second write happens exactly when the key is `vega_preset` and the value is the string name of a preset, and it is the preset's JSON written into `vega_lite_spec` |
| `SqlTable.ApplyWrites` | web-common/src/features/canvas/components/sql-table/index.ts:86-92 | the writes applied in order as overwrites: the result holds the old properties plus every property written, and the last write's property holds the last write's value |
| `SqlTable.UpdateOutcome` | web-common/src/features/canvas/components/sql-table/index.ts:83-92 | after an update the written property holds the given value; a preset choice also sets `vega_lite_spec` to the preset's JSON and nothing else; any other update changes that one property only |
| `SqlTable.UpdateFrame` | web-common/src/features/canvas/components/sql-table/index.ts:83-92 | every property other than the one written and `vega_lite_spec` keeps its presence and its value |
| `SqlTable.CustomPresetKeepsSpec` | web-common/src/features/canvas/components/sql-table/index.ts:83-92 | choosing "Custom" issues no write to `vega_lite_spec` and changes only `vega_preset` |
| `SqlTable.OfferedPresetsFillSpec` | web-common/src/features/canvas/components/sql-table/index.ts:83-89 | choosing any non-Custom option of the select writes the preset and then its JSON into `vega_lite_spec` |
| `SqlTable.UpdateIdempotent` | web-common/src/features/canvas/components/sql-table/index.ts:83-92 | repeating an update, a preset choice included, leaves the same spec as making it once |
| `SqlTable.UpdateKeepsValidity` | web-common/src/features/canvas/components/sql-table/index.ts:81-102 | an update of any property other than `connector` or `sql` does not change whether the spec is valid |
| `SqlTable.SqlTableComponent.constructor` | web-common/src/features/canvas/components/sql-table/index.ts:69-78 | a new component holds the default spec as its run-time object, has issued no base writes, and is not valid |
| `SqlTable.SqlTableComponent.BaseUpdateProperty` | web-common/src/features/canvas/components/sql-table/index.ts:86-92 | the base write overwrites one property and is appended to the log of base writes |
| `SqlTable.SqlTableComponent.UpdateProperty` | web-common/src/features/canvas/components/sql-table/index.ts:81-93 | the base writes issued are exactly `UpdateWrites(key, value)`, in order, and the new spec is the old one with those writes applied |

## Left out

- `VEGA_PRESETS[value]` on a JavaScript object literal also finds inherited prototype members such as `"constructor"`, `"toString"` or `"__proto__"`. These pass the truthiness test at index.ts:83. The model takes the table's keys to be the five declared presets only, so `LookupPreset` and `UpdateWrites` differ from the source on those names. There the source also issues the second write. For a function-valued member such as `"toString"` or `"constructor"`, `JSON.stringify` returns `undefined`, so `vega_lite_spec` is written as `undefined`. For `"__proto__"` it is written as `"{}"`.
- `BaseCanvasComponent.updateProperty` and the constructor's `super` call are foreign code. The base write is modelled as an overwrite of one property in a map, plus a ghost log of the writes issued. The constructor's `resource`, `parent` and `path` arguments are left out. The base constructor is taken to install `defaultSpec` unchanged; a component built from a resource that already has a connector and a query is not modelled.
- `JSON.stringify` is library serialisation. `PresetJson` writes out by hand the text it would give for each static preset object. No property depends on that text.
- `inputParams` form metadata (labels, descriptions, placeholders, rows, `showInUI`, defaults) has no behaviour. Only the values of the preset select are modelled.
- `SqlTable.svelte`, query execution against connectors, the canvas entity and path plumbing, and `resetParams`, `type` and `component` are UI wiring, I/O or code outside the component. They are not part of this model.
- The other type unions in types.ts (`ComponentSpec`, `TemplateSpec`, `CanvasComponentType`, alignment types) are declarations without logic.
- NaN, and JavaScript numbers as IEEE doubles, are not modelled. `Num` holds a `real`. Only `Num(0.0)` is falsy.
