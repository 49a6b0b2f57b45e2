/** The older interpreter of analyzer/analyzer.go. It routes like the core one but
    never stops on a reported error: it logs it and carries on with whatever value the
    failing call returned. Two of its steps can panic (an index into an empty element
    list, a type assertion on a nil content); a panic unwinds the whole pass and
    `ExecuteSchema` turns it into nil. */
module Legacy {
  import opened Values
  import opened Formatting
  import Core

  /** A step that either returned a value or panicked. */
  datatype Outcome<+T> = Done(value: T) | Panicked

  // ---------------------------------------------------------------------------
  // What each step computes
  // ---------------------------------------------------------------------------

  /** `processInit`. With an Init program the output is used even when Init reported an
      error; without one, a nil content panics in the `data.([]string)` assertion. */
  function ProcessInit(x: Extractors, s: Schema, content: Value): (r: Outcome<seq<string>>)
    ensures r.Panicked? <==> |s.init| == 0 && content == Nil
    ensures |s.init| == 0 && content.Strs? ==> r == Done(content.items)
    ensures |s.init| == 0 && content.Str? ==> r == Done([content.s])
    ensures |s.init| == 0 && !(content.Strs? || content.Str? || content == Nil) ==> r == Done([])
    ensures |s.init| != 0 && s.kind == ArrayType ==> r == Done(x.getElements(s.init, content).value)
    ensures |s.init| != 0 && s.kind != ArrayType ==> r == Done([x.getElement(s.init, content).value])
  {
    if |s.init| == 0 then
      match content
      case Strs(items) => Done(items)
      case Nil => Panicked
      case Str(t) => Done([t])
      case _ => Done([])
    else if s.kind == ArrayType then
      Done(x.getElements(s.init, content).value)
    else
      Done([x.getElement(s.init, content).value])
  }

  /** `processString`: the rule's value, coerced to the node's type and then to the
      secondary format, whatever errors were reported on the way. */
  function ProcessStringValue(x: Extractors, h: Handler, s: Schema, content: Value): Value
  {
    var result :=
      if s.kind == ArrayType then Strs(x.getStrings(s.rule, content).value)
      else
        var v := Str(x.getString(s.rule, content).value);
        if s.kind != StringType then Format(h, v, s.kind).value else v;
    if s.format.Some? then Format(h, result, s.format.value).value else result
  }

  /** `process`: route by the node's type. */
  function ProcessValue(x: Extractors, h: Handler, s: Schema, content: Value): Outcome<Value>
    decreases s.properties, 3
  {
    match s.kind
    case StringType => Done(ProcessStringValue(x, h, s, content))
    case IntegerType => Done(ProcessStringValue(x, h, s, content))
    case NumberType => Done(ProcessStringValue(x, h, s, content))
    case BooleanType => Done(ProcessStringValue(x, h, s, content))
    case ObjectType => ProcessObjectValue(x, h, s, content)
    case ArrayType => ProcessArrayValue(x, h, s, content)
    case OtherType(_) => Done(Nil)
  }

  /** The fields of an object against one element; a panic in any field is a panic. */
  function ProcessFields(x: Extractors, h: Handler, p: map<string, Schema>, element: string): Outcome<map<string, Value>>
    decreases Properties(p), 0
  {
    if exists field :: field in p && ProcessValue(x, h, p[field], Str(element)).Panicked? then Panicked
    else Done(map field | field in p :: ProcessValue(x, h, p[field], Str(element)).value)
  }

  /** `processObject`: element `[0]` of `processInit`, taken without a length check. */
  function ProcessObjectValue(x: Extractors, h: Handler, s: Schema, content: Value): Outcome<Value>
    decreases s.properties, 1
  {
    match s.properties
    case Properties(p) =>
      (match ProcessInit(x, s, content)
       case Panicked => Panicked
       case Done(elements) =>
         if |elements| == 0 then Panicked
         else
           match ProcessFields(x, h, p, elements[0])
           case Panicked => Panicked
           case Done(m) => Done(Dict(m)))
    case NoProperties =>
      Done(if s.rule.Some? then ProcessStringValue(x, h, CloneWithType(s, ObjectType), content) else Nil)
  }

  /** `processArray`: one object per element; a panic in any of them is a panic. */
  function ProcessArrayValue(x: Extractors, h: Handler, s: Schema, content: Value): Outcome<Value>
    decreases s.properties, 2
  {
    match s.properties
    case Properties(_) =>
      (match ProcessInit(x, s, content)
       case Panicked => Panicked
       case Done(elements) =>
         if exists i :: 0 <= i < |elements| &&
              ProcessObjectValue(x, h, NewObjectSchema(s.properties), Str(elements[i])).Panicked?
         then Panicked
         else Done(List(seq(|elements|, i requires 0 <= i < |elements| =>
           ProcessObjectValue(x, h, NewObjectSchema(s.properties), Str(elements[i])).value))))
    case NoProperties =>
      Done(if s.rule.Some? then ProcessStringValue(x, h, CloneWithType(s, ArrayType), content) else Nil)
  }

  /** `ExecuteSchema`: a pass over a document string; a panic becomes nil. */
  function ExecuteSchemaValue(x: Extractors, h: Handler, s: Schema, content: string): Value
  {
    match ProcessValue(x, h, s, Str(content))
    case Panicked => Nil
    case Done(v) => v
  }

  // ---------------------------------------------------------------------------
  // The source's procedures
  // ---------------------------------------------------------------------------

  /** `Analyzer`: the interpreter object and the handler it formats with. */
  class Analyzer {
    var formatHandler: Handler

    /** `NewAnalyzer`: installs the default handler. */
    constructor (casts: Casts)
      ensures formatHandler == DefaultHandler(casts)
    {
      formatHandler := DefaultHandler(casts);
    }

    method ExecuteSchema(x: Extractors, s: Schema, content: string) returns (r: Value)
      ensures r == ExecuteSchemaValue(x, formatHandler, s, content)
    {
      var o := Process(x, s, Str(content));
      match o {
        case Panicked => r := Nil;  // recovered
        case Done(v) => r := v;
      }
    }

    method Process(x: Extractors, s: Schema, content: Value) returns (o: Outcome<Value>)
      decreases s.properties, 3
      ensures o == ProcessValue(x, formatHandler, s, content)
    {
      match s.kind {
        case StringType =>
          var v := ProcessString(x, s, content);
          o := Done(v);
        case IntegerType =>
          var v := ProcessString(x, s, content);
          o := Done(v);
        case NumberType =>
          var v := ProcessString(x, s, content);
          o := Done(v);
        case BooleanType =>
          var v := ProcessString(x, s, content);
          o := Done(v);
        case ObjectType => o := ProcessObject(x, s, content);
        case ArrayType => o := ProcessArray(x, s, content);
        case OtherType(_) => o := Done(Nil);
      }
    }

    /** `processString`: `result` is reassigned at each stage; an error is only logged. */
    method ProcessString(x: Extractors, s: Schema, content: Value) returns (result: Value)
      ensures result == ProcessStringValue(x, formatHandler, s, content)
    {
      var failed: bool;
      if s.kind == ArrayType {
        var a := x.getStrings(s.rule, content);
        result, failed := Strs(a.value), a.failed;
      } else {
        var a := x.getString(s.rule, content);
        result, failed := Str(a.value), a.failed;
        if s.kind != StringType {
          result, failed := FormatWith(formatHandler, result, s.kind);
        }
      }
      if s.format.Some? {
        result, failed := FormatWith(formatHandler, result, s.format.value);
      }
    }

    /** `processObject`: fills `object[field]` (here `obj`) for every field, in any
        order; a panicking field ends the pass. */
    method ProcessObject(x: Extractors, s: Schema, content: Value) returns (o: Outcome<Value>)
      decreases s.properties, 1
      ensures o == ProcessObjectValue(x, formatHandler, s, content)
    {
      match s.properties {
        case Properties(p) =>
          var init := ProcessInit(x, s, content);
          if init.Panicked? || |init.value| == 0 {
            return Panicked;
          }
          var element := init.value[0];
          var obj: map<string, Value> := map[];
          var remaining := p.Keys;
          while remaining != {}
            invariant remaining <= p.Keys
            invariant forall field :: field in p.Keys - remaining ==>
              ProcessValue(x, formatHandler, p[field], Str(element)).Done?
            invariant obj == map field | field in p.Keys - remaining ::
              ProcessValue(x, formatHandler, p[field], Str(element)).value
            decreases remaining
          {
            var field :| field in remaining;
            var v := Process(x, p[field], Str(element));
            if v.Panicked? {
              assert ProcessFields(x, formatHandler, p, element) == Panicked;
              return Panicked;
            }
            obj := obj[field := v.value];
            remaining := remaining - {field};
          }
          assert forall field :: field in p ==> ProcessValue(x, formatHandler, p[field], Str(element)).Done?;
          assert obj == map field | field in p :: ProcessValue(x, formatHandler, p[field], Str(element)).value;
          assert ProcessFields(x, formatHandler, p, element) == Done(obj);
          o := Done(Dict(obj));
        case NoProperties =>
          if s.rule.Some? {
            var v := ProcessString(x, CloneWithType(s, ObjectType), content);
            o := Done(v);
          } else {
            o := Done(Nil);
          }
      }
    }

    /** `processArray`: fills `array[i]` (here `slots`) for every element, in order; a
        panicking element ends the pass. */
    method ProcessArray(x: Extractors, s: Schema, content: Value) returns (o: Outcome<Value>)
      decreases s.properties, 2
      ensures o == ProcessArrayValue(x, formatHandler, s, content)
    {
      match s.properties {
        case Properties(_) =>
          var init := ProcessInit(x, s, content);
          if init.Panicked? {
            return Panicked;
          }
          var elements, h := init.value, formatHandler;
          var slots := new Value[|elements|];
          for i := 0 to |elements|
            invariant forall j :: 0 <= j < i ==>
              ProcessObjectValue(x, formatHandler, NewObjectSchema(s.properties), Str(elements[j])) == Done(slots[j])
          {
            var newSchema := NewObjectSchema(s.properties);
            var v := ProcessObject(x, newSchema, Str(elements[i]));
            if v.Panicked? {
              assert ProcessObjectValue(x, formatHandler, newSchema, Str(elements[i])).Panicked?;
              return Panicked;
            }
            slots[i] := v.value;
          }
          assert slots[..] == seq(|elements|, i requires 0 <= i < |elements| =>
            ProcessObjectValue(x, h, NewObjectSchema(s.properties), Str(elements[i])).value);
          o := Done(List(slots[..]));
          assert o == ProcessArrayValue(x, formatHandler, s, content);
        case NoProperties =>
          if s.rule.Some? {
            var v := ProcessString(x, CloneWithType(s, ArrayType), content);
            o := Done(v);
          } else {
            o := Done(Nil);
          }
      }
    }
  }

  // ---------------------------------------------------------------------------
  // Properties
  // ---------------------------------------------------------------------------

  /** `process` routes exactly like the core `analyze`. */
  lemma ProcessRoutes(x: Extractors, h: Handler, s: Schema, content: Value)
    ensures s.kind.IsScalar() ==> ProcessValue(x, h, s, content) == Done(ProcessStringValue(x, h, s, content))
    ensures s.kind == ObjectType ==> ProcessValue(x, h, s, content) == ProcessObjectValue(x, h, s, content)
    ensures s.kind == ArrayType ==> ProcessValue(x, h, s, content) == ProcessArrayValue(x, h, s, content)
    ensures s.kind.OtherType? ==> ProcessValue(x, h, s, content) == Done(Nil)
  {
  }

  /** The same collaborators, with every error they report dropped. */
  function IgnoreErrors(x: Extractors): (y: Extractors)
    ensures forall r, c :: y.getString(r, c) == Attempt(x.getString(r, c).value, false)
    ensures forall r, c :: y.getStrings(r, c) == Attempt(x.getStrings(r, c).value, false)
    ensures forall i, c :: y.getElement(i, c) == Attempt(x.getElement(i, c).value, false)
    ensures forall i, c :: y.getElements(i, c) == Attempt(x.getElements(i, c).value, false)
  {
    Extractors(
      (r, c) => Attempt(x.getString(r, c).value, false),
      (r, c) => Attempt(x.getStrings(r, c).value, false),
      (i, c) => Attempt(x.getElement(i, c).value, false),
      (i, c) => Attempt(x.getElements(i, c).value, false))
  }

  /** The same handler, with every error it reports dropped. */
  function IgnoreFormatErrors(h: Handler): (g: Handler)
    ensures forall v, k :: Format(g, v, k) == Attempt(Format(h, v, k).value, false)
  {
    CustomHandler((v, k) => Attempt(Format(h, v, k).value, false))
  }

  /** A leaf: the legacy extractor is the core one with every error dropped. */
  lemma StringStepIgnoresErrors(x: Extractors, h: Handler, s: Schema, content: Value)
    ensures ProcessStringValue(x, h, s, content) ==
            Core.AnalyzeString(IgnoreErrors(x), IgnoreFormatErrors(h), s, content)
  {
  }

  /** On a document string, the legacy interpreter computes what the core one computes
      once every error reported by a rule, an Init program or the formatter is dropped;
      in particular it never panics there. */
  lemma {:induction false} LegacyIsCoreIgnoringErrors(x: Extractors, h: Handler, s: Schema, t: string)
    ensures ProcessValue(x, h, s, Str(t)) == Done(Core.Analyze(IgnoreErrors(x), IgnoreFormatErrors(h), s, Str(t)))
    decreases s.properties, 3
  {
    match s.kind
    case ObjectType => ObjectIgnoringErrors(x, h, s, t);
    case ArrayType => ArrayIgnoringErrors(x, h, s, t);
    case OtherType(_) =>
    case _ => StringStepIgnoresErrors(x, h, s, Str(t));
  }

  lemma {:induction false} ObjectIgnoringErrors(x: Extractors, h: Handler, s: Schema, t: string)
    requires s.kind == ObjectType
    ensures ProcessObjectValue(x, h, s, Str(t)) == Done(Core.AnalyzeObject(IgnoreErrors(x), IgnoreFormatErrors(h), s, Str(t)))
    decreases s.properties, 1
  {
    match s.properties
    case Properties(p) =>
      var elements := Core.AnalyzeInit(IgnoreErrors(x), s, Str(t));
      assert ProcessInit(x, s, Str(t)) == Done(elements) && |elements| == 1;
      FieldsIgnoringErrors(x, h, p, elements[0]);
    case NoProperties =>
      StringStepIgnoresErrors(x, h, CloneWithType(s, ObjectType), Str(t));
  }

  lemma {:induction false} ArrayIgnoringErrors(x: Extractors, h: Handler, s: Schema, t: string)
    requires s.kind == ArrayType
    ensures ProcessArrayValue(x, h, s, Str(t)) == Done(Core.AnalyzeArray(IgnoreErrors(x), IgnoreFormatErrors(h), s, Str(t)))
    decreases s.properties, 2
  {
    var y, g := IgnoreErrors(x), IgnoreFormatErrors(h);
    match s.properties
    case Properties(p) =>
      var elements := Core.AnalyzeInit(y, s, Str(t));
      assert ProcessInit(x, s, Str(t)) == Done(elements);
      var o := NewObjectSchema(s.properties);
      forall i | 0 <= i < |elements|
        ensures ProcessObjectValue(x, h, o, Str(elements[i])) == Done(Core.AnalyzeObject(y, g, o, Str(elements[i])))
      {
        ObjectIgnoringErrors(x, h, o, elements[i]);
      }
      assert !exists i :: 0 <= i < |elements| && ProcessObjectValue(x, h, o, Str(elements[i])).Panicked?;
      assert seq(|elements|, i requires 0 <= i < |elements| => ProcessObjectValue(x, h, o, Str(elements[i])).value) ==
             seq(|elements|, i requires 0 <= i < |elements| => Core.AnalyzeObject(y, g, o, Str(elements[i])));
    case NoProperties =>
      StringStepIgnoresErrors(x, h, CloneWithType(s, ArrayType), Str(t));
  }

  lemma {:induction false} FieldsIgnoringErrors(x: Extractors, h: Handler, p: map<string, Schema>, element: string)
    ensures ProcessFields(x, h, p, element) == Done(Core.Fields(IgnoreErrors(x), IgnoreFormatErrors(h), p, element))
    decreases Properties(p), 0
  {
    forall field | field in p
      ensures ProcessValue(x, h, p[field], Str(element)) ==
              Done(Core.Analyze(IgnoreErrors(x), IgnoreFormatErrors(h), p[field], Str(element)))
    {
      LegacyIsCoreIgnoringErrors(x, h, p[field], element);
    }
    assert !exists field :: field in p && ProcessValue(x, h, p[field], Str(element)).Panicked?;
    assert (map field | field in p :: ProcessValue(x, h, p[field], Str(element)).value) ==
           Core.Fields(IgnoreErrors(x), IgnoreFormatErrors(h), p, element);
  }

  /** `ExecuteSchema` never reaches its recovery: no schema panics on a document string. */
  lemma NeverPanicsFromEntry(x: Extractors, h: Handler, s: Schema, t: string)
    ensures ProcessValue(x, h, s, Str(t)).Done?
    ensures ExecuteSchemaValue(x, h, s, t) == ProcessValue(x, h, s, Str(t)).value
  {
    LegacyIsCoreIgnoringErrors(x, h, s, t);
  }

  /** The fault the unchecked `[0]` leaves open: an object over an empty element list
      panics, and so does one whose content is nil. */
  lemma EmptyElementsPanic(x: Extractors, h: Handler, s: Schema, content: Value)
    requires s.properties.Properties? && |s.init| == 0
    requires content == Strs([]) || content == Nil
    ensures ProcessObjectValue(x, h, s, content) == Panicked
  {
  }

  /** An object node over a document string maps exactly its fields, each processed
      against the first element, even when the Init program reported an error. */
  lemma ObjectMapsItsFields(x: Extractors, h: Handler, s: Schema, t: string)
    requires s.kind == ObjectType && s.properties.Properties?
    ensures var element := if |s.init| == 0 then t else x.getElement(s.init, Str(t)).value;
      var o := ProcessObjectValue(x, h, s, Str(t));
      && o.Done? && o.value.Dict? && o.value.entries.Keys == s.properties.fields.Keys
      && forall field :: field in s.properties.fields ==>
           Done(o.value.entries[field]) == ProcessValue(x, h, s.properties.fields[field], Str(element))
  {
    var element := if |s.init| == 0 then t else x.getElement(s.init, Str(t)).value;
    var p := s.properties.fields;
    forall field | field in p
      ensures ProcessValue(x, h, p[field], Str(element)).Done?
    {
      NeverPanicsFromEntry(x, h, p[field], element);
    }
  }

  /** An array node over a document string holds one map per element, in order: entry i
      has exactly the fields, each processed against element i, even when the Init
      program reported an error. */
  lemma ArrayOnePerElement(x: Extractors, h: Handler, s: Schema, t: string)
    requires s.kind == ArrayType && s.properties.Properties?
    ensures var elements := if |s.init| == 0 then [t] else x.getElements(s.init, Str(t)).value;
      var o := ProcessArrayValue(x, h, s, Str(t));
      && o.Done? && o.value.List? && |o.value.elems| == |elements|
      && forall i :: 0 <= i < |elements| ==>
           && o.value.elems[i].Dict? && o.value.elems[i].entries.Keys == s.properties.fields.Keys
           && forall field :: field in s.properties.fields ==>
                Done(o.value.elems[i].entries[field]) == ProcessValue(x, h, s.properties.fields[field], Str(elements[i]))
  {
    var elements := if |s.init| == 0 then [t] else x.getElements(s.init, Str(t)).value;
    var o := NewObjectSchema(s.properties);
    forall i | 0 <= i < |elements|
      ensures var e := ProcessObjectValue(x, h, o, Str(elements[i]));
        && e.Done? && e.value.Dict? && e.value.entries.Keys == s.properties.fields.Keys
        && forall field :: field in s.properties.fields ==>
             Done(e.value.entries[field]) == ProcessValue(x, h, s.properties.fields[field], Str(elements[i]))
    {
      ObjectMapsItsFields(x, h, o, elements[i]);
    }
    NeverPanicsFromEntry(x, h, s, t);
  }

  /** Where the two interpreters part: a String leaf whose rule failed is returned as is
      by the core, but still converted by the legacy one. */
  lemma RuleErrorPolicyDiffers(x: Extractors, c: Casts, s: Schema, content: Value)
    requires s.kind == StringType && s.format == Some(IntegerType)
    requires x.getString(s.rule, content).failed
    ensures var v := x.getString(s.rule, content).value;
      && Core.Analyze(x, DefaultHandler(c), s, content) == Str(v)
      && ProcessValue(x, DefaultHandler(c), s, content) == Done(Int(c.toInt(v).value))
  {
  }

  /** And an object whose Init program failed is nil in the core, but is still built
      from the element Init returned by the legacy one. */
  lemma InitErrorPolicyDiffers(x: Extractors, h: Handler, s: Schema, t: string)
    requires s.kind == ObjectType && s.properties.Properties? && |s.init| != 0
    requires x.getElement(s.init, Str(t)).failed
    ensures Core.Analyze(x, h, s, Str(t)) == Nil
    ensures ProcessValue(x, h, s, Str(t)).Done? && ProcessValue(x, h, s, Str(t)).value.Dict?
  {
    ObjectMapsItsFields(x, h, s, t);
  }
}
