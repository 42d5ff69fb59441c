/** Conversion of a host (Python) value into a JSON tree, trying the
    extractions in a fixed order and falling back to the value's text. */
module PyToJson {
  import opened Wrappers
  import opened Json

  /** A 64-bit signed integer, the range `extract::<i64>` accepts. */
  type I64 = x: int | -0x8000_0000_0000_0000 <= x < 0x8000_0000_0000_0000

  /** An `f64` as the host hands it over: finite (kept as its shortest decimal
      text), NaN, or an infinity. */
  datatype Float = Finite(text: string) | NaN | Infinite(negative: bool)

  /** Whether the value is a list, a dict, or neither. */
  datatype Shape =
    | Scalar
    | List(items: seq<HostValue>)
    | Dict(entries: seq<(HostValue, HostValue)>)

  /** A host value, described by what each extraction gives for it: Python's
      `True` has `asBool == Some(true)` but also `asI64 == Some(1)` and an
      `asF64`, and only the order of the tests makes it a JSON boolean.
      `text` is the value's `str()`. */
  datatype HostValue = HostValue(
    asBool: Option<bool>,
    asString: Option<string>,
    asI64: Option<I64>,
    asF64: Option<Float>,
    shape: Shape,
    text: string)

  /** `Number::from_f64(f).unwrap_or(0.into())`. */
  function FloatNumber(f: Float): Num {
    match f
    case Finite(t) => F64(t)
    case _ => I64(0)
  }

  /** The conversion as a function: bool, then string, then i64, then f64,
      then list, then dict, and otherwise the value's text. */
  function ToJson(v: HostValue): Json
    decreases v
  {
    if v.asBool.Some? then Bool(v.asBool.value)
    else if v.asString.Some? then String(v.asString.value)
    else if v.asI64.Some? then Number(I64(v.asI64.value as int))
    else if v.asF64.Some? then Number(FloatNumber(v.asF64.value))
    else match v.shape
      case List(items) =>
        Array(seq(|items|, i requires 0 <= i < |items| => ToJson(items[i])))
      case Dict(entries) =>
        Object(FromPairs(seq(|entries|, i requires 0 <= i < |entries| => (entries[i].0.text, ToJson(entries[i].1)))))
      case Scalar => String(v.text)
  }

  /** `py_to_json`: the scalar cases return at once; a list is converted by
      pushing each converted element, a dict by inserting each key's text with
      its converted value. No case fails. */
  method PyToJson(v: HostValue) returns (r: Json)
    ensures r == ToJson(v)
    decreases v
  {
    if v.asBool.Some? { return Bool(v.asBool.value); }
    if v.asString.Some? { return String(v.asString.value); }
    if v.asI64.Some? { return Number(I64(v.asI64.value as int)); }
    if v.asF64.Some? { return Number(FloatNumber(v.asF64.value)); }
    match v.shape {
      case List(items) =>
        var vec: seq<Json> := [];
        for i := 0 to |items|
          invariant vec == seq(i, k requires 0 <= k < i => ToJson(items[k]))
        {
          var x := PyToJson(items[i]);
          vec := vec + [x];
        }
        return Array(vec);
      case Dict(entries) =>
        ghost var pairs := seq(|entries|, k requires 0 <= k < |entries| => (entries[k].0.text, ToJson(entries[k].1)));
        var fields: seq<(string, Json)> := [];
        for i := 0 to |entries|
          invariant fields == FromPairs(pairs[..i])
        {
          var x := PyToJson(entries[i].1);
          assert pairs[..i + 1][..i] == pairs[..i];
          fields := Insert(fields, entries[i].0.text, x);
        }
        assert pairs[..|entries|] == pairs;
        return Object(fields);
      case Scalar =>
        return String(v.text);
    }
  }

  /** No extraction succeeds: the value is converted by its shape. */
  predicate NotScalar(v: HostValue) {
    v.asBool.None? && v.asString.None? && v.asI64.None? && v.asF64.None?
  }

  /** The scalar cases in their fixed order: a value that extracts as a bool
      is a JSON boolean even when it would also extract as an integer; then a
      string stays the same string; then an i64 is that number; then a finite
      f64 is that number and NaN or an infinity is 0; what is none of these
      nor a list or dict becomes the string of its text. */
  lemma ScalarCaseOrder(v: HostValue)
    ensures v.asBool.Some? ==> ToJson(v) == Bool(v.asBool.value) && !ToJson(v).Number?
    ensures v.asBool.None? && v.asString.Some? ==> ToJson(v) == String(v.asString.value)
    ensures v.asBool.None? && v.asString.None? && v.asI64.Some? ==>
              ToJson(v) == Number(I64(v.asI64.value as int))
    ensures v.asBool.None? && v.asString.None? && v.asI64.None? && v.asF64.Some? ==>
              ToJson(v) == Number(if v.asF64.value.Finite? then F64(v.asF64.value.text) else I64(0))
    ensures NotScalar(v) && v.shape.Scalar? ==> ToJson(v) == String(v.text)
  {
  }

  /** A list becomes an array of the same length whose element i is the
      conversion of element i. */
  lemma ListConversion(v: HostValue)
    requires NotScalar(v) && v.shape.List?
    ensures ToJson(v).Array?
    ensures |ToJson(v).items| == |v.shape.items|
    ensures forall i :: 0 <= i < |v.shape.items| ==> ToJson(v).items[i] == ToJson(v.shape.items[i])
  {
  }

  /** The pairs a dict's entries give: each key's text with its converted value. */
  function DictPairs(v: HostValue): (ps: seq<(string, Json)>)
    requires v.shape.Dict?
    ensures |ps| == |v.shape.entries|
  {
    var entries := v.shape.entries;
    seq(|entries|, i requires 0 <= i < |entries| => (entries[i].0.text, ToJson(entries[i].1)))
  }

  /** A dict becomes an object keyed by the text of each key, with no key
      twice; the value under a key is the converted value of the LAST entry
      whose key has that text (so keys 1 and "1" collide and the later wins). */
  lemma DictConversion(v: HostValue, k: string)
    requires NotScalar(v) && v.shape.Dict?
    ensures ToJson(v).Object?
    ensures UniqueKeys(ToJson(v).fields)
    ensures k in Keys(ToJson(v).fields) <==> exists i :: 0 <= i < |v.shape.entries| && v.shape.entries[i].0.text == k
    ensures Lookup(ToJson(v).fields, k) == LastValue(DictPairs(v), k)
  {
    var ps := DictPairs(v);
    assert ToJson(v) == Object(FromPairs(ps));
    FromPairsLookup(ps, k);
    if k in Keys(ps) {
      var i :| 0 <= i < |ps| && Keys(ps)[i] == k;
      assert v.shape.entries[i].0.text == k;
    }
    if exists i :: 0 <= i < |v.shape.entries| && v.shape.entries[i].0.text == k {
      var i :| 0 <= i < |v.shape.entries| && v.shape.entries[i].0.text == k;
      assert Keys(ps)[i] == k;
    }
  }
}
