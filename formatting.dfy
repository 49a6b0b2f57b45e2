/** The FormatHandler: converts an extracted value to a requested schema type.
    `defaultFormatHandler.Format` is the same code in core/analyzer.go and in
    analyzer/analyzer.go; it is defined once here and used by both interpreters. */
module Formatting {
  import opened Values

  /** The library conversions the default handler delegates to, taken as parameters:
      `cast.ToIntE`, `cast.ToFloat64E`, `cast.ToBoolE`, and `json.Unmarshal` into a
      `[]any` or a `map[string]any` (None when it reports an error). */
  datatype Casts = Casts(
    toInt: string -> Attempt<int>,
    toFloat: string -> Attempt<bv64>,
    toBool: string -> Attempt<bool>,
    decodeArray: string -> Option<seq<Value>>,
    decodeObject: string -> Option<map<string, Value>>)

  /** A FormatHandler: the built-in one, or one installed by the host application. */
  datatype Handler =
    | DefaultHandler(casts: Casts)
    | CustomHandler(format: (Value, Kind) -> Attempt<Value>)

  /** The conversion of one string to kind `k` (the `case string` branch). */
  function FormatString(c: Casts, s: string, k: Kind): (r: Attempt<Value>)
    ensures k == StringType ==> r == Attempt(Str(s), false)
    ensures k.OtherType? ==> r == Attempt(Str(s), true)
    ensures k == IntegerType ==> r == Attempt(Int(c.toInt(s).value), c.toInt(s).failed)
    ensures k == NumberType ==> r == Attempt(Float(c.toFloat(s).value), c.toFloat(s).failed)
    ensures k == BooleanType ==> r == Attempt(Bool(c.toBool(s).value), c.toBool(s).failed)
    ensures k == ArrayType ==> (r.failed <==> c.decodeArray(s).None?)
    ensures k == ArrayType && c.decodeArray(s).Some? ==> r == Attempt(List(c.decodeArray(s).value), false)
    ensures k == ObjectType ==> (r.failed <==> c.decodeObject(s).None?)
    ensures k == ObjectType && c.decodeObject(s).Some? ==> r == Attempt(Dict(c.decodeObject(s).value), false)
    ensures (k == ArrayType || k == ObjectType) && r.failed ==> r.value == Nil
  {
    match k
    case StringType => Attempt(Str(s), false)
    case IntegerType =>
      var n := c.toInt(s);
      Attempt(Int(n.value), n.failed)
    case NumberType =>
      var f := c.toFloat(s);
      Attempt(Float(f.value), f.failed)
    case BooleanType =>
      var b := c.toBool(s);
      Attempt(Bool(b.value), b.failed)
    case ArrayType =>
      (match c.decodeArray(s)
       case None => Attempt(Nil, true)
       case Some(elems) => Attempt(List(elems), false))
    case ObjectType =>
      (match c.decodeObject(s)
       case None => Attempt(Nil, true)
       case Some(entries) => Attempt(Dict(entries), false))
    case OtherType(_) => Attempt(Str(s), true)
  }

  /** `defaultFormatHandler.Format`: strings are converted, `[]string` element by element
      and `map[string]any` value by value (per-item errors dropped); anything else is
      returned unchanged with an error. */
  function DefaultFormat(c: Casts, v: Value, k: Kind): (r: Attempt<Value>)
    decreases v
    ensures v.Str? && k == StringType ==> r == Attempt(v, false)
    ensures v.Strs? ==> !r.failed && r.value.List? && |r.value.elems| == |v.items|
    ensures v.Dict? ==> !r.failed && r.value.Dict? && r.value.entries.Keys == v.entries.Keys
    ensures !(v.Str? || v.Strs? || v.Dict?) ==> r == Attempt(v, true)
  {
    match v
    case Str(s) => FormatString(c, s, k)
    case Strs(items) =>
      Attempt(List(seq(|items|, i requires 0 <= i < |items| => FormatString(c, items[i], k).value)), false)
    case Dict(m) =>
      Attempt(Dict(map key | key in m :: DefaultFormat(c, m[key], k).value), false)
    case _ => Attempt(v, true)
  }

  /** `Format` on whichever handler is installed. */
  function Format(h: Handler, v: Value, k: Kind): Attempt<Value>
  {
    match h
    case DefaultHandler(c) => DefaultFormat(c, v, k)
    case CustomHandler(f) => f(v, k)
  }

  /** A value made only of strings and string-keyed maps of such values. */
  predicate IsStringTree(v: Value)
    decreases v
  {
    match v
    case Str(_) => true
    case Dict(m) => forall key :: key in m ==> IsStringTree(m[key])
    case _ => false
  }

  /** Converting to String leaves a tree of strings as it is, at every depth. */
  lemma {:induction false} StringFormatFixesStringTrees(c: Casts, v: Value)
    requires IsStringTree(v)
    ensures DefaultFormat(c, v, StringType) == Attempt(v, false)
    decreases v
  {
    match v
    case Str(_) =>
    case Dict(m) =>
      forall key | key in m
        ensures DefaultFormat(c, m[key], StringType).value == m[key]
      {
        StringFormatFixesStringTrees(c, m[key]);
      }
      assert DefaultFormat(c, v, StringType).value.entries == m;
  }

  /** Element i of a converted `[]string` is exactly the conversion of string i on its
      own, with its error (if any) dropped. */
  lemma ListFormatIsElementwise(c: Casts, items: seq<string>, k: Kind, i: nat)
    requires i < |items|
    ensures DefaultFormat(c, Strs(items), k).value.elems[i] == DefaultFormat(c, Str(items[i]), k).value
  {
  }

  /** Entry `key` of a converted map is the conversion of the old entry, error dropped. */
  lemma MapFormatIsEntrywise(c: Casts, m: map<string, Value>, k: Kind, key: string)
    requires key in m
    ensures key in DefaultFormat(c, Dict(m), k).value.entries
    ensures DefaultFormat(c, Dict(m), k).value.entries[key] == DefaultFormat(c, m[key], k).value
  {
  }

  /** The whole failure condition of the default handler: an unhandled input shape, or a
      string whose conversion to `k` fails (an unknown kind always fails). */
  lemma DefaultFormatFailure(c: Casts, v: Value, k: Kind)
    ensures DefaultFormat(c, v, k).failed <==>
      (!(v.Str? || v.Strs? || v.Dict?)) ||
      (v.Str? && match k
        case StringType => false
        case IntegerType => c.toInt(v.s).failed
        case NumberType => c.toFloat(v.s).failed
        case BooleanType => c.toBool(v.s).failed
        case ArrayType => c.decodeArray(v.s).None?
        case ObjectType => c.decodeObject(v.s).None?
        case OtherType(_) => true)
  {
  }

  /** The default handler's `Format` as the source runs it: the `[]string` case fills a
      fresh slice slot by slot, the map case fills a fresh map key by key, in any order. */
  method DefaultFormatM(c: Casts, v: Value, k: Kind) returns (r: Value, failed: bool)
    decreases v
    ensures Attempt(r, failed) == DefaultFormat(c, v, k)
  {
    match v {
      case Str(s) =>
        var a := FormatString(c, s, k);
        r, failed := a.value, a.failed;
      case Strs(items) =>
        var slice := new Value[|items|];
        for i := 0 to |items|
          invariant forall j :: 0 <= j < i ==> slice[j] == FormatString(c, items[j], k).value
        {
          // the recursive call on a string goes straight to the string case
          slice[i] := FormatString(c, items[i], k).value;
        }
        assert slice[..] == seq(|items|, i requires 0 <= i < |items| => FormatString(c, items[i], k).value);
        r, failed := List(slice[..]), false;
        assert Attempt(r, failed) == DefaultFormat(c, v, k);
      case Dict(m) =>
        var maps: map<string, Value> := map[];
        var remaining := m.Keys;
        while remaining != {}
          invariant remaining <= m.Keys
          invariant maps == map key | key in m.Keys - remaining :: DefaultFormat(c, m[key], k).value
          decreases remaining
        {
          var key :| key in remaining;
          var o, _ := DefaultFormatM(c, m[key], k);
          maps := maps[key := o];
          remaining := remaining - {key};
        }
        assert maps == map key | key in m :: DefaultFormat(c, m[key], k).value;
        r, failed := Dict(maps), false;
      case _ =>
        r, failed := v, true;
    }
  }

  /** Calls `Format` on the installed handler. */
  method FormatWith(h: Handler, v: Value, k: Kind) returns (r: Value, failed: bool)
    ensures Attempt(r, failed) == Format(h, v, k)
  {
    match h {
      case DefaultHandler(c) =>
        r, failed := DefaultFormatM(c, v, k);
      case CustomHandler(f) =>
        var a := f(v, k);
        r, failed := a.value, a.failed;
    }
  }
}
