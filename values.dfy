/** Values shared by both schema interpreters: the schema tree, the dynamically typed
    values that flow through an extraction pass, and Go's `(value, error)` return pairs. */
module Values {

  datatype Option<+T> = None | Some(value: T)

  /** A Go call that returns `(value, error)`. Both interpreters keep using `value`
      after an error, so the value is kept next to the failure flag. */
  datatype Attempt<+T> = Attempt(value: T, failed: bool)

  /** The schema type names. `OtherType` stands for any other (non-empty) type string. */
  datatype Kind =
    | StringType
    | IntegerType
    | NumberType
    | BooleanType
    | ObjectType
    | ArrayType
    | OtherType(name: string)
  {
    /** The four kinds extracted as a single leaf string. */
    predicate IsScalar() {
      StringType? || IntegerType? || NumberType? || BooleanType?
    }
  }

  /** A Go `any` as it occurs during a pass: raw content, extracted strings, converted
      scalars, decoded JSON and the maps and lists the builders assemble. */
  datatype Value =
    | Nil                                  // untyped nil: the absent value
    | Str(s: string)                       // string
    | Strs(items: seq<string>)             // []string, as returned by GetStrings
    | Int(n: int)                          // int
    | Float(bits: bv64)                    // float64, kept as its IEEE-754 bits
    | Bool(b: bool)                        // bool
    | List(elems: seq<Value>)              // []any
    | Dict(entries: map<string, Value>)    // map[string]any
    | Foreign(typeName: string)            // any other dynamic type

  /** One step of a selector program; its syntax and meaning are outside this model. */
  type Step = string

  /** Go's `Properties` field: a nil map, or a (possibly empty) map of field schemas. */
  datatype Properties = NoProperties | Properties(fields: map<string, Schema>)

  /** A schema node. `format == None` stands for the empty format string; `rule == None`
      for a nil rule; an `init` of length zero means no Init program. */
  datatype Schema = Schema(
    kind: Kind,
    format: Option<Kind>,
    properties: Properties,
    rule: Option<seq<Step>>,
    init: seq<Step>)

  /** The evaluators behind a schema's programs, taken as parameters:
      `Rule.GetString`, `Rule.GetStrings`, `Init.GetElement`, `Init.GetElements`. */
  datatype Extractors = Extractors(
    getString: (Option<seq<Step>>, Value) -> Attempt<string>,
    getStrings: (Option<seq<Step>>, Value) -> Attempt<seq<string>>,
    getElement: (seq<Step>, Value) -> Attempt<string>,
    getElements: (seq<Step>, Value) -> Attempt<seq<string>>)

  /** `CloneWithType`: the same node relabelled with another kind. */
  function CloneWithType(s: Schema, k: Kind): (c: Schema)
    ensures c.kind == k
    ensures c.format == s.format && c.properties == s.properties
    ensures c.rule == s.rule && c.init == s.init
  {
    s.(kind := k)
  }

  /** `NewSchema(ObjectType).SetProperty(p)`: a bare Object node carrying `p` and nothing else. */
  function NewObjectSchema(p: Properties): (s: Schema)
    ensures s.kind == ObjectType && s.properties == p
    ensures s.format == None && s.rule == None && |s.init| == 0
  {
    Schema(ObjectType, None, p, None, [])
  }
}
