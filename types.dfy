/** The SQL Table component's spec record (`SqlTableSpec` in components/types.ts) and the
    untyped property bag the canvas keeps it in at run time. */
module SqlTableTypes {

  datatype Option<T> = None | Some(value: T)

  /** The two display modes `display_type` may take. */
  datatype DisplayType = Table | VegaLite

  /** `SqlTableSpec`, with the optional common properties it inherits from
      `ComponentCommonProperties` (`title`, `description`, `show_description_as_tooltip`). */
  datatype SqlTableSpec = SqlTableSpec(
    title: Option<string>,
    description: Option<string>,
    showDescriptionAsTooltip: Option<bool>,
    connector: string,
    sql: string,
    limit: Option<real>,
    displayType: Option<DisplayType>,
    vegaPreset: Option<string>,
    vegaLiteSpec: Option<string>)

  /** `AllKeys<SqlTableSpec>`: the property names `updateProperty` accepts. */
  datatype Key =
    | Title | Description | ShowDescriptionAsTooltip
    | Connector | Sql | Limit | DisplayTypeKey | VegaPreset | VegaLiteSpec

  /** A run-time property value, `SqlTableSpec[AllKeys<SqlTableSpec>]`: a string, a number,
      a boolean, or `undefined`. The display types travel as their strings. */
  datatype Value = Undefined | Str(s: string) | Num(n: real) | Bool(b: bool)

  /** JavaScript truthiness of a value (NaN is not modelled). */
  predicate Truthy(v: Value) {
    match v
    case Undefined => false
    case Str(s) => s != ""
    case Num(n) => n != 0.0
    case Bool(b) => b
  }

  /** The string a display type is written as. */
  function DisplayTypeName(d: DisplayType): string {
    match d
    case Table => "table"
    case VegaLite => "vega_lite"
  }

  /** Every property name of the record. */
  const AllKeys: set<Key> :=
    {Title, Description, ShowDescriptionAsTooltip, Connector, Sql, Limit, DisplayTypeKey, VegaPreset, VegaLiteSpec}

  /** The value a spec literal gives property `k`, if it sets it at all. */
  function Field(spec: SqlTableSpec, k: Key): Option<Value> {
    match k
    case Title => if spec.title.Some? then Some(Str(spec.title.value)) else None
    case Description => if spec.description.Some? then Some(Str(spec.description.value)) else None
    case ShowDescriptionAsTooltip =>
      if spec.showDescriptionAsTooltip.Some? then Some(Bool(spec.showDescriptionAsTooltip.value)) else None
    case Connector => Some(Str(spec.connector))
    case Sql => Some(Str(spec.sql))
    case Limit => if spec.limit.Some? then Some(Num(spec.limit.value)) else None
    case DisplayTypeKey =>
      if spec.displayType.Some? then Some(Str(DisplayTypeName(spec.displayType.value))) else None
    case VegaPreset => if spec.vegaPreset.Some? then Some(Str(spec.vegaPreset.value)) else None
    case VegaLiteSpec => if spec.vegaLiteSpec.Some? then Some(Str(spec.vegaLiteSpec.value)) else None
  }

  /** The object a spec literal denotes: one entry per property the literal sets, none for
      an optional property it leaves out; the two required properties are always there. */
  function ToProps(spec: SqlTableSpec): (m: map<Key, Value>)
    ensures Connector in m && m[Connector] == Str(spec.connector)
    ensures Sql in m && m[Sql] == Str(spec.sql)
    ensures forall k :: k in m <==> Field(spec, k).Some?
    ensures forall k :: k in m ==> Some(m[k]) == Field(spec, k)
  {
    map k | k in AllKeys && Field(spec, k).Some? :: Field(spec, k).value
  }
}
