/** The schema interpreter of core/analyzer.go. The functions say what each step
    computes; the `Exec...` methods run it as the source does (stage by stage, filling
    maps and slices in loops) and are proved to compute exactly those functions. */
module Core {
  import opened Values
  import opened Formatting

  /** The process-wide formatter slot behind `SetFormatter` and `GetFormatter`. */
  class FormatterSlot {
    var current: Handler

    /** The package `init`: the slot starts out holding the default handler. */
    constructor (casts: Casts)
      ensures current == DefaultHandler(casts)
    {
      current := DefaultHandler(casts);
    }

    method SetFormatter(h: Handler)
      modifies this
      ensures current == h
    {
      current := h;
    }

    /** `SetFormatter` as written: `atomic.Value.Store` panics on a value whose concrete
        type is not that of the first value stored, the default handler, so any custom
        handler panics and the slot keeps what it held. */
    method SetFormatterAsWritten(h: Handler) returns (panicked: bool)
      modifies this
      ensures panicked <==> !StoreAccepts(h)
      ensures current == if panicked then old(current) else h
    {
      if !StoreAccepts(h) {
        return true;
      }
      current := h;
      panicked := false;
    }

    method GetFormatter() returns (h: Handler)
      ensures h == current
    {
      h := current;
    }
  }

  /** The values `atomic.Value.Store` accepts once the default handler has been stored:
      those of the same concrete type, `*defaultFormatHandler`. */
  predicate StoreAccepts(h: Handler) {
    h.DefaultHandler?
  }

  /** The slot as written cannot take a custom handler: storing one panics. */
  lemma CustomHandlerPanics(c: Casts, f: (Value, Kind) -> Attempt<Value>)
    ensures StoreAccepts(DefaultHandler(c))
    ensures !StoreAccepts(CustomHandler(f))
  {
  }

  /** The formatter swap as intended: after `SetFormatter(h)`, with any handler `h`, a
      new pass formats with `h`. */
  method SwapThenAnalyze(slot: FormatterSlot, h: Handler, x: Extractors, s: Schema, content: string) returns (r: Value)
    modifies slot
    ensures slot.current == h
    ensures r == Analyze(x, h, s, Str(content))
  {
    slot.SetFormatter(h);
    r := AnalyzeDocument(slot, x, s, content);
  }

  // ---------------------------------------------------------------------------
  // What each step computes
  // ---------------------------------------------------------------------------

  /** `analyzeInit`: the element contexts the fields of `s` are evaluated against.
      Every failure degrades to no elements. */
  function AnalyzeInit(x: Extractors, s: Schema, content: Value): (elements: seq<string>)
    ensures |s.init| == 0 && content.Strs? ==> elements == content.items
    ensures |s.init| == 0 && content.Str? ==> elements == [content.s]
    ensures |s.init| == 0 && !content.Strs? && !content.Str? ==> elements == []
    ensures |s.init| != 0 && s.kind == ArrayType ==>
      elements == (if x.getElements(s.init, content).failed then [] else x.getElements(s.init, content).value)
    ensures |s.init| != 0 && s.kind != ArrayType ==>
      (elements == [] <==> x.getElement(s.init, content).failed) &&
      (elements != [] ==> elements == [x.getElement(s.init, content).value])
  {
    if |s.init| == 0 then
      match content
      case Strs(items) => items
      case Str(t) => [t]
      case _ => []
    else if s.kind == ArrayType then
      var a := x.getElements(s.init, content);
      if a.failed then [] else a.value
    else
      var a := x.getElement(s.init, content);
      if a.failed then [] else [a.value]
  }

  /** First stage of `analyzeString`: the rule's output, coerced to the node's own type
      unless the node is a String or an Array. */
  function Extract(x: Extractors, h: Handler, s: Schema, content: Value): Attempt<Value>
  {
    if s.kind == ArrayType then
      var a := x.getStrings(s.rule, content);
      Attempt(Strs(a.value), a.failed)
    else
      var a := x.getString(s.rule, content);
      if a.failed || s.kind == StringType then Attempt(Str(a.value), a.failed)
      else Format(h, Str(a.value), s.kind)
  }

  /** `analyzeString`: a leaf value. A failing stage ends the node with whatever value
      that stage returned; the secondary format is applied only after a clean first stage. */
  function AnalyzeString(x: Extractors, h: Handler, s: Schema, content: Value): (r: Value)
    ensures s.kind == ArrayType && x.getStrings(s.rule, content).failed ==>
      r == Strs(x.getStrings(s.rule, content).value)
    ensures s.kind != ArrayType && x.getString(s.rule, content).failed ==>
      r == Str(x.getString(s.rule, content).value)
    ensures s.kind == StringType && s.format.None? ==>
      r == Str(x.getString(s.rule, content).value)
    ensures s.kind != ArrayType && s.kind != StringType && !x.getString(s.rule, content).failed &&
            Format(h, Str(x.getString(s.rule, content).value), s.kind).failed ==>
      r == Format(h, Str(x.getString(s.rule, content).value), s.kind).value
    ensures s.kind == StringType && s.format.Some? && !x.getString(s.rule, content).failed ==>
      r == Format(h, Str(x.getString(s.rule, content).value), s.format.value).value
    ensures s.kind == ArrayType && s.format.Some? && !x.getStrings(s.rule, content).failed ==>
      r == Format(h, Strs(x.getStrings(s.rule, content).value), s.format.value).value
    ensures s.kind == ArrayType && s.format.None? ==> r == Strs(x.getStrings(s.rule, content).value)
    ensures s.kind != ArrayType && s.kind != StringType && !x.getString(s.rule, content).failed &&
            !Format(h, Str(x.getString(s.rule, content).value), s.kind).failed ==>
      var first := Format(h, Str(x.getString(s.rule, content).value), s.kind).value;
      r == if s.format.Some? then Format(h, first, s.format.value).value else first
  {
    var first := Extract(x, h, s, content);
    if first.failed || s.format.None? then first.value
    else Format(h, first.value, s.format.value).value
  }

  /** `analyze`: route by the node's type. */
  function Analyze(x: Extractors, h: Handler, s: Schema, content: Value): Value
    decreases s.properties, 3
  {
    match s.kind
    case StringType => AnalyzeString(x, h, s, content)
    case IntegerType => AnalyzeString(x, h, s, content)
    case NumberType => AnalyzeString(x, h, s, content)
    case BooleanType => AnalyzeString(x, h, s, content)
    case ObjectType => AnalyzeObject(x, h, s, content)
    case ArrayType => AnalyzeArray(x, h, s, content)
    case OtherType(_) => Nil
  }

  /** The map of an object node, every field evaluated against one element. */
  function Fields(x: Extractors, h: Handler, p: map<string, Schema>, element: string): map<string, Value>
    decreases Properties(p), 0
  {
    map field | field in p :: Analyze(x, h, p[field], Str(element))
  }

  /** `analyzeObject`: fields against the first element; or the rule under an Object
      label; or nothing. */
  function AnalyzeObject(x: Extractors, h: Handler, s: Schema, content: Value): Value
    decreases s.properties, 1
  {
    match s.properties
    case Properties(p) =>
      var elements := AnalyzeInit(x, s, content);
      if |elements| == 0 then Nil else Dict(Fields(x, h, p, elements[0]))
    case NoProperties =>
      if s.rule.Some? then AnalyzeString(x, h, CloneWithType(s, ObjectType), content) else Nil
  }

  /** `analyzeArray`: one object per element; or the rule under an Array label; or nothing. */
  function AnalyzeArray(x: Extractors, h: Handler, s: Schema, content: Value): Value
    decreases s.properties, 2
  {
    match s.properties
    case Properties(_) =>
      var elements := AnalyzeInit(x, s, content);
      List(seq(|elements|, i requires 0 <= i < |elements| =>
        AnalyzeObject(x, h, NewObjectSchema(s.properties), Str(elements[i]))))
    case NoProperties =>
      if s.rule.Some? then AnalyzeString(x, h, CloneWithType(s, ArrayType), content) else Nil
  }

  // ---------------------------------------------------------------------------
  // The source's procedures
  // ---------------------------------------------------------------------------

  /** `Analyze`: the public entry, on a document string at path "$". */
  method AnalyzeDocument(slot: FormatterSlot, x: Extractors, s: Schema, content: string) returns (r: Value)
    ensures r == Analyze(x, slot.current, s, Str(content))
  {
    r := ExecAnalyze(slot, x, s, Str(content));
  }

  method ExecAnalyze(slot: FormatterSlot, x: Extractors, s: Schema, content: Value) returns (r: Value)
    decreases s.properties, 3
    ensures r == Analyze(x, slot.current, s, content)
  {
    match s.kind {
      case StringType => r := ExecAnalyzeString(slot, x, s, content);
      case IntegerType => r := ExecAnalyzeString(slot, x, s, content);
      case NumberType => r := ExecAnalyzeString(slot, x, s, content);
      case BooleanType => r := ExecAnalyzeString(slot, x, s, content);
      case ObjectType => r := ExecAnalyzeObject(slot, x, s, content);
      case ArrayType => r := ExecAnalyzeArray(slot, x, s, content);
      case OtherType(_) => r := Nil;
    }
  }

  /** `analyzeString`: `ret` is reassigned stage by stage, each failure returning early;
      the formatter is read from the slot at every coercion. */
  method ExecAnalyzeString(slot: FormatterSlot, x: Extractors, s: Schema, content: Value) returns (ret: Value)
    ensures ret == AnalyzeString(x, slot.current, s, content)
  {
    var failed: bool;
    if s.kind == ArrayType {
      var a := x.getStrings(s.rule, content);
      ret, failed := Strs(a.value), a.failed;
      if failed {
        return;
      }
    } else {
      var a := x.getString(s.rule, content);
      ret, failed := Str(a.value), a.failed;
      if failed {
        return;
      }
      if s.kind != StringType {
        var h := slot.GetFormatter();
        ret, failed := FormatWith(h, ret, s.kind);
        if failed {
          return;
        }
      }
    }
    if s.format.Some? {
      var h := slot.GetFormatter();
      ret, failed := FormatWith(h, ret, s.format.value);
    }
  }

  /** `analyzeObject`: fills `object[field]` (here `obj`) for every field, in any order. */
  method ExecAnalyzeObject(slot: FormatterSlot, x: Extractors, s: Schema, content: Value) returns (ret: Value)
    decreases s.properties, 1
    ensures ret == AnalyzeObject(x, slot.current, s, content)
  {
    match s.properties {
      case Properties(p) =>
        var element := AnalyzeInit(x, s, content);
        if |element| == 0 {
          return Nil;
        }
        var obj: map<string, Value> := map[];
        var remaining := p.Keys;
        while remaining != {}
          invariant remaining <= p.Keys
          invariant obj == map field | field in p.Keys - remaining :: Analyze(x, slot.current, p[field], Str(element[0]))
          decreases remaining
        {
          var field :| field in remaining;
          var v := ExecAnalyze(slot, x, p[field], Str(element[0]));
          obj := obj[field := v];
          remaining := remaining - {field};
        }
        assert obj == Fields(x, slot.current, p, element[0]);
        ret := Dict(obj);
      case NoProperties =>
        if s.rule.Some? {
          ret := ExecAnalyzeString(slot, x, CloneWithType(s, ObjectType), content);
        } else {
          ret := Nil;
        }
    }
  }

  /** `analyzeArray`: fills `array[i]` (here `slots`) for every element, in resolution order. */
  method ExecAnalyzeArray(slot: FormatterSlot, x: Extractors, s: Schema, content: Value) returns (r: Value)
    decreases s.properties, 2
    ensures r == AnalyzeArray(x, slot.current, s, content)
  {
    match s.properties {
      case Properties(_) =>
        var elements := AnalyzeInit(x, s, content);
        var slots := new Value[|elements|];
        for i := 0 to |elements|
          invariant forall j :: 0 <= j < i ==>
            slots[j] == AnalyzeObject(x, slot.current, NewObjectSchema(s.properties), Str(elements[j]))
        {
          var newSchema := NewObjectSchema(s.properties);
          var v := ExecAnalyzeObject(slot, x, newSchema, Str(elements[i]));
          slots[i] := v;
        }
        r := List(slots[..]);
        assert r == AnalyzeArray(x, slot.current, s, content);
      case NoProperties =>
        if s.rule.Some? {
          r := ExecAnalyzeString(slot, x, CloneWithType(s, ArrayType), content);
        } else {
          r := Nil;
        }
    }
  }

  // ---------------------------------------------------------------------------
  // Properties
  // ---------------------------------------------------------------------------

  /** `analyze` sends the four scalar types to the leaf extractor, Object and Array to
      their builders, and yields nil for any other type. */
  lemma AnalyzeRoutes(x: Extractors, h: Handler, s: Schema, content: Value)
    ensures s.kind.IsScalar() ==> Analyze(x, h, s, content) == AnalyzeString(x, h, s, content)
    ensures s.kind == ObjectType ==> Analyze(x, h, s, content) == AnalyzeObject(x, h, s, content)
    ensures s.kind == ArrayType ==> Analyze(x, h, s, content) == AnalyzeArray(x, h, s, content)
    ensures s.kind.OtherType? ==> Analyze(x, h, s, content) == Nil
  {
  }

  /** An object node with properties is nil exactly when no element was resolved;
      otherwise it maps exactly its fields, each analysed against the first element. */
  lemma ObjectFromFirstElement(x: Extractors, h: Handler, s: Schema, content: Value)
    requires s.properties.Properties?
    ensures var r := AnalyzeObject(x, h, s, content);
      var elements := AnalyzeInit(x, s, content);
      && (r == Nil <==> elements == [])
      && (elements != [] ==>
            && r.Dict? && r.entries.Keys == s.properties.fields.Keys
            && forall field :: field in r.entries ==>
                 r.entries[field] == Analyze(x, h, s.properties.fields[field], Str(elements[0])))
  {
  }

  /** The bare Object node built for each array element resolves to that element alone. */
  lemma ObjectOnOwnElement(x: Extractors, h: Handler, p: map<string, Schema>, element: string)
    ensures AnalyzeObject(x, h, NewObjectSchema(Properties(p)), Str(element)) == Dict(Fields(x, h, p, element))
  {
    assert AnalyzeInit(x, NewObjectSchema(Properties(p)), Str(element)) == [element];
  }

  /** An array node with properties yields one map per resolved element, in order, entry
      i holding exactly the fields analysed against element i. */
  lemma {:induction false} ArrayOfObjects(x: Extractors, h: Handler, s: Schema, content: Value)
    requires s.properties.Properties?
    ensures var r := AnalyzeArray(x, h, s, content);
      var elements := AnalyzeInit(x, s, content);
      && r.List? && |r.elems| == |elements|
      && forall i :: 0 <= i < |elements| ==>
           && r.elems[i].Dict? && r.elems[i].entries.Keys == s.properties.fields.Keys
           && forall field :: field in s.properties.fields ==>
                r.elems[i].entries[field] == Analyze(x, h, s.properties.fields[field], Str(elements[i]))
  {
    var elements := AnalyzeInit(x, s, content);
    var r := AnalyzeArray(x, h, s, content);
    forall i | 0 <= i < |elements|
      ensures r.elems[i] == Dict(Fields(x, h, s.properties.fields, elements[i]))
    {
      ObjectOnOwnElement(x, h, s.properties.fields, elements[i]);
    }
  }

  /** No resolved element: an Object node is nil, an Array node the empty list (never
      nil), whether or not a rule is also set. */
  lemma AbsentVersusEmpty(x: Extractors, h: Handler, s: Schema, content: Value)
    requires s.properties.Properties? && AnalyzeInit(x, s, content) == []
    ensures s.kind == ObjectType ==> Analyze(x, h, s, content) == Nil
    ensures s.kind == ArrayType ==> Analyze(x, h, s, content) == List([])
  {
  }

  /** Without properties an Object or Array node is its rule's leaf value under its own
      label, and nil when it has no rule either. */
  lemma WithoutProperties(x: Extractors, h: Handler, s: Schema, content: Value)
    requires s.properties.NoProperties?
    ensures s.rule.None? ==> AnalyzeObject(x, h, s, content) == Nil && AnalyzeArray(x, h, s, content) == Nil
    ensures s.rule.Some? ==>
      && AnalyzeObject(x, h, s, content) == AnalyzeString(x, h, CloneWithType(s, ObjectType), content)
      && AnalyzeArray(x, h, s, content) == AnalyzeString(x, h, CloneWithType(s, ArrayType), content)
  {
  }

  /** With the default handler, a scalar leaf whose rule succeeded is the library
      conversion's own result, even when that conversion reports an error (then the
      secondary format is skipped). */
  lemma ScalarLeafCoercion(x: Extractors, c: Casts, s: Schema, content: Value)
    requires s.kind.IsScalar() && s.kind != StringType
    requires !x.getString(s.rule, content).failed
    ensures var v := x.getString(s.rule, content).value;
      var first := FormatString(c, v, s.kind);
      Analyze(x, DefaultHandler(c), s, content) ==
        if first.failed || s.format.None? then first.value
        else DefaultFormat(c, first.value, s.format.value).value
  {
  }

  /** With the default handler, an Array leaf with a secondary format converts each
      extracted string on its own, keeping their number and order. */
  lemma ArrayLeafFormatsEachString(x: Extractors, c: Casts, s: Schema, content: Value)
    requires s.kind == ArrayType && s.properties.NoProperties? && s.rule.Some? && s.format.Some?
    requires !x.getStrings(s.rule, content).failed
    ensures var items := x.getStrings(s.rule, content).value;
      var r := Analyze(x, DefaultHandler(c), s, content);
      && r.List? && |r.elems| == |items|
      && forall i :: 0 <= i < |items| ==> r.elems[i] == FormatString(c, items[i], s.format.value).value
  {
  }

  /** The shape of a node's result, read off the schema alone. */
  ghost predicate Conforms(s: Schema, v: Value)
    decreases s.properties, 1
  {
    match s.kind
    case StringType => s.format.None? ==> v.Str?
    case ObjectType =>
      (match s.properties
       case Properties(p) => v == Nil || FieldsConform(p, v)
       case NoProperties => s.rule.None? ==> v == Nil)
    case ArrayType =>
      (match s.properties
       case Properties(p) => v.List? && forall i :: 0 <= i < |v.elems| ==> FieldsConform(p, v.elems[i])
       case NoProperties =>
         && (s.rule.None? ==> v == Nil)
         && (s.rule.Some? && s.format.None? ==> v.Strs?))
    case OtherType(_) => v == Nil
    case _ => true
  }

  /** A map holding exactly the fields of `p`, each of the shape its schema allows. */
  ghost predicate FieldsConform(p: map<string, Schema>, v: Value)
    decreases Properties(p), 0
  {
    v.Dict? && v.entries.Keys == p.Keys && forall field :: field in p ==> Conforms(p[field], v.entries[field])
  }

  /** Every result has the shape its schema prescribes, at every depth. */
  lemma {:induction false} AnalyzeConforms(x: Extractors, h: Handler, s: Schema, content: Value)
    ensures Conforms(s, Analyze(x, h, s, content))
    decreases s.properties, 1
  {
    match s.kind
    case ObjectType =>
      match s.properties {
        case Properties(p) =>
          var elements := AnalyzeInit(x, s, content);
          if elements != [] {
            FieldsConformFor(x, h, p, elements[0]);
          }
        case NoProperties =>
      }
    case ArrayType =>
      match s.properties {
        case Properties(p) =>
          var elements := AnalyzeInit(x, s, content);
          var r := AnalyzeArray(x, h, s, content);
          assert r.List? && |r.elems| == |elements|;
          forall i | 0 <= i < |r.elems|
            ensures FieldsConform(p, r.elems[i])
          {
            ObjectOnOwnElement(x, h, p, elements[i]);
            FieldsConformFor(x, h, p, elements[i]);
          }
        case NoProperties =>
      }
    case _ =>
  }

  lemma {:induction false} FieldsConformFor(x: Extractors, h: Handler, p: map<string, Schema>, element: string)
    ensures FieldsConform(p, Dict(Fields(x, h, p, element)))
    decreases Properties(p), 0
  {
    forall field | field in p
      ensures Conforms(p[field], Fields(x, h, p, element)[field])
    {
      AnalyzeConforms(x, h, p[field], Str(element));
    }
  }

  /** A schema none of whose nodes ever calls the formatter: String leaves without a
      secondary format, Array leaves without one, and builders over such fields. */
  predicate FormatterFree(s: Schema)
    decreases s.properties, 1
  {
    match s.kind
    case StringType => s.format.None?
    case ObjectType =>
      (match s.properties
       case Properties(p) => AllFormatterFree(p)
       case NoProperties => s.rule.None?)
    case ArrayType =>
      (match s.properties
       case Properties(p) => AllFormatterFree(p)
       case NoProperties => s.rule.None? || s.format.None?)
    case OtherType(_) => true
    case _ => false
  }

  predicate AllFormatterFree(p: map<string, Schema>)
    decreases Properties(p), 0
  {
    forall field :: field in p ==> FormatterFree(p[field])
  }

  /** Replacing the formatter cannot change the result of a formatter-free schema. */
  lemma {:induction false} FormatterIndependent(x: Extractors, h1: Handler, h2: Handler, s: Schema, content: Value)
    requires FormatterFree(s)
    ensures Analyze(x, h1, s, content) == Analyze(x, h2, s, content)
    decreases s.properties, 1
  {
    match s.kind
    case ObjectType =>
      match s.properties {
        case Properties(p) =>
          var elements := AnalyzeInit(x, s, content);
          if elements != [] {
            FieldsIndependent(x, h1, h2, p, elements[0]);
          }
        case NoProperties =>
      }
    case ArrayType =>
      match s.properties {
        case Properties(p) =>
          var elements := AnalyzeInit(x, s, content);
          var r1, r2 := AnalyzeArray(x, h1, s, content), AnalyzeArray(x, h2, s, content);
          assert |r1.elems| == |r2.elems| == |elements|;
          forall i | 0 <= i < |elements|
            ensures r1.elems[i] == r2.elems[i]
          {
            ObjectOnOwnElement(x, h1, p, elements[i]);
            ObjectOnOwnElement(x, h2, p, elements[i]);
            FieldsIndependent(x, h1, h2, p, elements[i]);
          }
          assert r1.elems == r2.elems;
        case NoProperties =>
      }
    case _ =>
  }

  lemma {:induction false} FieldsIndependent(x: Extractors, h1: Handler, h2: Handler, p: map<string, Schema>, element: string)
    requires AllFormatterFree(p)
    ensures Fields(x, h1, p, element) == Fields(x, h2, p, element)
    decreases Properties(p), 0
  {
    forall field | field in p
      ensures Fields(x, h1, p, element)[field] == Fields(x, h2, p, element)[field]
    {
      FormatterIndependent(x, h1, h2, p[field], Str(element));
    }
  }
}
