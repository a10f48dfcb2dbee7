/** The SQL Table canvas component (components/sql-table/index.ts): its chart presets, its
    default specs and sizes, its validator, and its `updateProperty` override that fills in the
    Vega-Lite spec when a preset is chosen. */
module SqlTable {
  import opened SqlTableTypes
  import opened JsString

  // ---------------------------------------------------------------------------------------
  // The preset table `VEGA_PRESETS`
  // ---------------------------------------------------------------------------------------

  /** The five keys of `VEGA_PRESETS`. */
  datatype Preset = Line | StackedLine | Bar | Pie | SingleNumber

  /** The key under which a preset is stored. */
  function PresetName(p: Preset): string {
    match p
    case Line => "line"
    case StackedLine => "stacked_line"
    case Bar => "bar"
    case Pie => "pie"
    case SingleNumber => "single_number"
  }

  /** `VEGA_PRESETS[name]` taken as a lookup: the preset stored under `name`, if any. It is
      the inverse of PresetName. */
  function LookupPreset(name: string): (r: Option<Preset>)
    ensures r.Some? ==> PresetName(r.value) == name
    ensures forall p :: PresetName(p) == name ==> r == Some(p)
  {
    if name == "line" then Some(Line)
    else if name == "stacked_line" then Some(StackedLine)
    else if name == "bar" then Some(Bar)
    else if name == "pie" then Some(Pie)
    else if name == "single_number" then Some(SingleNumber)
    else None
  }

  /** `JSON.stringify(VEGA_PRESETS[PresetName(p)], null, 2)`: the preset's Vega-Lite spec as
      two-space indented JSON text. Nothing in the model depends on this text beyond its
      being a fixed string per preset. */
  function PresetJson(p: Preset): string {
    match p
    case Line =>
      "{\n"
      + "  \"$schema\": \"https://vega.github.io/schema/vega-lite/v5.json\",\n"
      + "  \"data\": {\n"
      + "    \"name\": \"table\"\n"
      + "  },\n"
      + "  \"mark\": \"line\",\n"
      + "  \"encoding\": {\n"
      + "    \"x\": {\n"
      + "      \"field\": \"date\",\n"
      + "      \"type\": \"temporal\",\n"
      + "      \"title\": \"Date\"\n"
      + "    },\n"
      + "    \"y\": {\n"
      + "      \"field\": \"value\",\n"
      + "      \"type\": \"quantitative\",\n"
      + "      \"title\": \"Value\"\n"
      + "    }\n"
      + "  }\n"
      + "}"
    case StackedLine =>
      "{\n"
      + "  \"$schema\": \"https://vega.github.io/schema/vega-lite/v5.json\",\n"
      + "  \"data\": {\n"
      + "    \"name\": \"table\"\n"
      + "  },\n"
      + "  \"mark\": \"line\",\n"
      + "  \"encoding\": {\n"
      + "    \"x\": {\n"
      + "      \"field\": \"date\",\n"
      + "      \"type\": \"temporal\",\n"
      + "      \"title\": \"Date\"\n"
      + "    },\n"
      + "    \"y\": {\n"
      + "      \"field\": \"value\",\n"
      + "      \"type\": \"quantitative\",\n"
      + "      \"title\": \"Value\"\n"
      + "    },\n"
      + "    \"color\": {\n"
      + "      \"field\": \"category\",\n"
      + "      \"type\": \"nominal\",\n"
      + "      \"title\": \"Category\"\n"
      + "    }\n"
      + "  }\n"
      + "}"
    case Bar =>
      "{\n"
      + "  \"$schema\": \"https://vega.github.io/schema/vega-lite/v5.json\",\n"
      + "  \"data\": {\n"
      + "    \"name\": \"table\"\n"
      + "  },\n"
      + "  \"mark\": \"bar\",\n"
      + "  \"encoding\": {\n"
      + "    \"x\": {\n"
      + "      \"field\": \"category\",\n"
      + "      \"type\": \"nominal\",\n"
      + "      \"title\": \"Category\"\n"
      + "    },\n"
      + "    \"y\": {\n"
      + "      \"field\": \"value\",\n"
      + "      \"type\": \"quantitative\",\n"
      + "      \"title\": \"Value\"\n"
      + "    }\n"
      + "  }\n"
      + "}"
    case Pie =>
      "{\n"
      + "  \"$schema\": \"https://vega.github.io/schema/vega-lite/v5.json\",\n"
      + "  \"data\": {\n"
      + "    \"name\": \"table\"\n"
      + "  },\n"
      + "  \"mark\": {\n"
      + "    \"type\": \"arc\",\n"
      + "    \"innerRadius\": 0\n"
      + "  },\n"
      + "  \"encoding\": {\n"
      + "    \"theta\": {\n"
      + "      \"field\": \"value\",\n"
      + "      \"type\": \"quantitative\"\n"
      + "    },\n"
      + "    \"color\": {\n"
      + "      \"field\": \"category\",\n"
      + "      \"type\": \"nominal\",\n"
      + "      \"title\": \"Category\"\n"
      + "    }\n"
      + "  }\n"
      + "}"
    case SingleNumber =>
      "{\n"
      + "  \"$schema\": \"https://vega.github.io/schema/vega-lite/v5.json\",\n"
      + "  \"data\": {\n"
      + "    \"name\": \"table\"\n"
      + "  },\n"
      + "  \"mark\": {\n"
      + "    \"type\": \"text\",\n"
      + "    \"fontSize\": 64,\n"
      + "    \"fontWeight\": \"bold\"\n"
      + "  },\n"
      + "  \"encoding\": {\n"
      + "    \"text\": {\n"
      + "      \"field\": \"value\",\n"
      + "      \"type\": \"quantitative\",\n"
      + "      \"format\": \",.0f\"\n"
      + "    }\n"
      + "  }\n"
      + "}"
  }

  /** The values of the "Chart Preset" select in the inspector, "Custom" first. */
  const PresetOptionValues: seq<string> := ["", "line", "stacked_line", "bar", "pie", "single_number"]

  /** The select offers exactly "Custom" and the five presets: every other option names a key
      of `VEGA_PRESETS`, every key is offered, and "Custom" names none. */
  lemma PresetOptionsMatchTable()
    ensures forall o :: o in PresetOptionValues && o != "" ==> LookupPreset(o).Some?
    ensures forall p :: PresetName(p) in PresetOptionValues
    ensures PresetOptionValues[0] == "" && LookupPreset("") == None
  {
  }

  // ---------------------------------------------------------------------------------------
  // Sizes and default specs
  // ---------------------------------------------------------------------------------------

  /** A grid size in canvas cells. */
  datatype Size = Size(width: nat, height: nat)

  /** `minSize`: the smallest the component may be made. */
  const MinSize: Size := Size(4, 4)

  /** `defaultSize`: the size a newly placed component gets. */
  const DefaultSize: Size := Size(6, 8)

  /** A newly placed component already satisfies its own minimum size. */
  lemma DefaultSizeFitsMinSize()
    ensures DefaultSize.width >= MinSize.width && DefaultSize.height >= MinSize.height
  {
  }

  /** The spec the constructor hands to the base class: blank title, description, connector
      and query, a 1000-row limit and nothing else. It does not pass the validator. */
  function DefaultSpec(): (spec: SqlTableSpec)
    ensures !IsValid(spec)
    ensures !NonBlank(spec.connector) && !NonBlank(spec.sql)
    ensures spec.limit == Some(1000.0)
    ensures spec.title == Some("") && spec.description == Some("") && spec.showDescriptionAsTooltip == None
    ensures spec.displayType == None && spec.vegaPreset == None && spec.vegaLiteSpec == None
  {
    SqlTableSpec(Some(""), Some(""), None, "", "", Some(1000.0), None, None, None)
  }

  /** `newComponentSpec()`: a spec with an example query, a 1000-row limit and the table
      display, but no connector, so it still does not pass the validator. */
  function NewComponentSpec(): (spec: SqlTableSpec)
    ensures NonBlank(spec.sql) && !NonBlank(spec.connector)
    ensures !IsValid(spec)
    ensures spec.limit == Some(1000.0) && spec.displayType == Some(Table)
    ensures spec.connector == "" && spec.sql == "SELECT 1 as example"
    ensures spec.title == None && spec.description == None && spec.showDescriptionAsTooltip == None
    ensures spec.vegaPreset == None && spec.vegaLiteSpec == None
  {
    var spec := SqlTableSpec(None, None, None, "", "SELECT 1 as example", Some(1000.0), Some(Table), None, None);
    assert !IsWhitespace(spec.sql[0]);
    spec
  }

  // ---------------------------------------------------------------------------------------
  // The validator `isValid`
  // ---------------------------------------------------------------------------------------

  /** Property `k` of the run-time object is a string holding a non-whitespace character. */
  ghost predicate NonBlankString(props: map<Key, Value>, k: Key) {
    k in props && props[k].Str? && NonBlank(props[k].s)
  }

  /** `isValid` on the object as it is at run time: `connector` and `sql` must both be strings
      (a missing property is `undefined`) whose trimmed text is not empty. */
  function IsValidProps(props: map<Key, Value>): (ok: bool)
    ensures ok <==> NonBlankString(props, Connector) && NonBlankString(props, Sql)
  {
    TrimEmptyIff();
    Connector in props && props[Connector].Str? && |Trim(props[Connector].s)| > 0 &&
    Sql in props && props[Sql].Str? && |Trim(props[Sql].s)| > 0
  }

  /** `isValid(spec)` on a typed spec: both required strings hold a non-whitespace character. */
  function IsValid(spec: SqlTableSpec): (ok: bool)
    ensures ok <==> NonBlank(spec.connector) && NonBlank(spec.sql)
  {
    IsValidProps(ToProps(spec))
  }

  // ---------------------------------------------------------------------------------------
  // The update rule `updateProperty`
  // ---------------------------------------------------------------------------------------

  /** The writes the override hands to the base class's `updateProperty`, in order. Choosing a
      preset writes the preset and then its JSON into `vega_lite_spec`; any other write is
      passed on unchanged. */
  function UpdateWrites(key: Key, value: Value): (ws: seq<(Key, Value)>)
    ensures 1 <= |ws| <= 2 && ws[0] == (key, value)
    ensures |ws| == 2 <==> key == VegaPreset && exists p :: value == Str(PresetName(p))
    ensures forall p :: key == VegaPreset && value == Str(PresetName(p)) ==>
      ws == [(VegaPreset, value), (VegaLiteSpec, Str(PresetJson(p)))]
  {
    if key == VegaPreset && Truthy(value) && value.Str? && LookupPreset(value.s).Some? then
      [(key, value), (VegaLiteSpec, Str(PresetJson(LookupPreset(value.s).value)))]
    else
      [(key, value)]
  }

  /** The base class's write taken as an overwrite: the writes applied to the spec in order. */
  function ApplyWrites(props: map<Key, Value>, ws: seq<(Key, Value)>): (r: map<Key, Value>)
    ensures r.Keys == props.Keys + set i | 0 <= i < |ws| :: ws[i].0
    ensures ws != [] ==> r[ws[|ws| - 1].0] == ws[|ws| - 1].1
    decreases |ws|
  {
    if ws == [] then props else ApplyWrites(props[ws[0].0 := ws[0].1], ws[1..])
  }

  /** One or two writes applied in order. */
  lemma ApplyWritesShort(props: map<Key, Value>, ws: seq<(Key, Value)>)
    requires 1 <= |ws| <= 2
    ensures |ws| == 1 ==> ApplyWrites(props, ws) == props[ws[0].0 := ws[0].1]
    ensures |ws| == 2 ==> ApplyWrites(props, ws) == props[ws[0].0 := ws[0].1][ws[1].0 := ws[1].1]
  {
    var m := props[ws[0].0 := ws[0].1];
    assert ApplyWrites(props, ws) == ApplyWrites(m, ws[1..]);
    if |ws| == 2 {
      assert ApplyWrites(m, ws[1..]) == ApplyWrites(m[ws[1].0 := ws[1].1], ws[2..]);
    }
  }

  /** A property that none of the writes names keeps its value. */
  lemma {:induction false} ApplyWritesFrame(props: map<Key, Value>, ws: seq<(Key, Value)>, k: Key)
    requires forall i :: 0 <= i < |ws| ==> ws[i].0 != k
    ensures k in ApplyWrites(props, ws) <==> k in props
    ensures k in props ==> ApplyWrites(props, ws)[k] == props[k]
    decreases |ws|
  {
    if ws != [] {
      ApplyWritesFrame(props[ws[0].0 := ws[0].1], ws[1..], k);
    }
  }

  /** After an update the property written holds the value given; a preset choice also leaves
      the preset's JSON in `vega_lite_spec`; any other update changes that one property only. */
  lemma UpdateOutcome(props: map<Key, Value>, key: Key, value: Value)
    ensures key in ApplyWrites(props, UpdateWrites(key, value))
    ensures ApplyWrites(props, UpdateWrites(key, value))[key] == value
    ensures forall p :: key == VegaPreset && value == Str(PresetName(p)) ==>
      ApplyWrites(props, UpdateWrites(key, value)) == props[VegaPreset := value][VegaLiteSpec := Str(PresetJson(p))]
    ensures (key != VegaPreset || forall p :: value != Str(PresetName(p))) ==>
      ApplyWrites(props, UpdateWrites(key, value)) == props[key := value]
  {
    ApplyWritesShort(props, UpdateWrites(key, value));
  }

  /** An update touches only the property written and `vega_lite_spec`. */
  lemma UpdateFrame(props: map<Key, Value>, key: Key, value: Value, k: Key)
    requires k != key && k != VegaLiteSpec
    ensures k in ApplyWrites(props, UpdateWrites(key, value)) <==> k in props
    ensures k in props ==> ApplyWrites(props, UpdateWrites(key, value))[k] == props[k]
  {
    ApplyWritesFrame(props, UpdateWrites(key, value), k);
  }

  /** Choosing "Custom" (the empty preset) writes only `vega_preset`, never `vega_lite_spec`. */
  lemma CustomPresetKeepsSpec(props: map<Key, Value>)
    ensures forall i :: 0 <= i < |UpdateWrites(VegaPreset, Str(""))| ==>
      UpdateWrites(VegaPreset, Str(""))[i].0 != VegaLiteSpec
    ensures ApplyWrites(props, UpdateWrites(VegaPreset, Str(""))) == props[VegaPreset := Str("")]
  {
  }

  /** Every preset the select offers besides "Custom" makes the update fill `vega_lite_spec`. */
  lemma OfferedPresetsFillSpec(o: string)
    requires o in PresetOptionValues && o != ""
    ensures UpdateWrites(VegaPreset, Str(o)) ==
      [(VegaPreset, Str(o)), (VegaLiteSpec, Str(PresetJson(LookupPreset(o).value)))]
  {
    PresetOptionsMatchTable();
  }

  /** Making the same update twice leaves the spec as making it once. */
  lemma UpdateIdempotent(props: map<Key, Value>, key: Key, value: Value)
    ensures ApplyWrites(ApplyWrites(props, UpdateWrites(key, value)), UpdateWrites(key, value))
         == ApplyWrites(props, UpdateWrites(key, value))
  {
    var ws := UpdateWrites(key, value);
    ApplyWritesShort(props, ws);
    ApplyWritesShort(ApplyWrites(props, ws), ws);
  }

  /** An update of anything but `connector` or `sql` does not change whether the spec is valid. */
  lemma UpdateKeepsValidity(props: map<Key, Value>, key: Key, value: Value)
    requires key != Connector && key != Sql
    ensures IsValidProps(ApplyWrites(props, UpdateWrites(key, value))) == IsValidProps(props)
  {
    UpdateFrame(props, key, value, Connector);
    UpdateFrame(props, key, value, Sql);
  }

  // ---------------------------------------------------------------------------------------
  // The component
  // ---------------------------------------------------------------------------------------

  /** `SqlTableComponent`: the spec the base component holds, as a property map, and the
      writes handed to the base class's `updateProperty` so far. */
  class SqlTableComponent {
    var spec: map<Key, Value>
    ghost var baseWrites: seq<(Key, Value)>

    /** The component starts from the default spec, which is not yet valid. */
    constructor ()
      ensures spec == ToProps(DefaultSpec()) && baseWrites == []
      ensures !IsValidProps(spec)
    {
      var defaultSpec := DefaultSpec();
      assert !IsValid(defaultSpec);
      spec := ToProps(defaultSpec);
      baseWrites := [];
    }

    /** The base class's `updateProperty`, taken as an overwrite of one property. */
    method BaseUpdateProperty(key: Key, value: Value)
      modifies this
      ensures spec == old(spec)[key := value]
      ensures baseWrites == old(baseWrites) + [(key, value)]
    {
      spec := spec[key := value];
      baseWrites := baseWrites + [(key, value)];
    }

    /** The override: a write of a known preset name into `vega_preset` is passed on and then
        followed by a write of that preset's JSON into `vega_lite_spec`; every other write is
        passed on alone. */
    method UpdateProperty(key: Key, value: Value)
      modifies this
      ensures baseWrites == old(baseWrites) + UpdateWrites(key, value)
      ensures spec == ApplyWrites(old(spec), UpdateWrites(key, value))
    {
      if key == VegaPreset && Truthy(value) && value.Str? && LookupPreset(value.s).Some? {
        var presetSpec := PresetJson(LookupPreset(value.s).value);
        BaseUpdateProperty(key, value);
        BaseUpdateProperty(VegaLiteSpec, Str(presetSpec));
        ApplyWritesShort(old(spec), UpdateWrites(key, value));
        return;
      }
      BaseUpdateProperty(key, value);
      ApplyWritesShort(old(spec), UpdateWrites(key, value));
    }
  }
}
