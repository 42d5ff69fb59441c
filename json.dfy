/** The JSON value tree (serde_json's `Value`), its object insert, and its
    compact text form (serde_json's `to_string`). */
module Json {
  import opened Wrappers
  import opened Text

  /** A JSON number: an `i64`, or a finite `f64` kept as the shortest decimal
      text serde_json prints for it. */
  datatype Num = I64(i: int) | F64(text: string)

  datatype Json =
    | Null
    | Bool(b: bool)
    | Number(n: Num)
    | String(s: string)
    | Array(items: seq<Json>)
    | Object(fields: seq<(string, Json)>)

  /** The keys of an object's fields, in order. */
  function Keys(fields: seq<(string, Json)>): (ks: seq<string>)
    ensures |ks| == |fields|
    ensures forall i :: 0 <= i < |fields| ==> ks[i] == fields[i].0
  {
    if fields == [] then [] else [fields[0].0] + Keys(fields[1..])
  }

  /** No key occurs twice. */
  predicate UniqueKeys(fields: seq<(string, Json)>) {
    Distinct(Keys(fields))
  }

  predicate Distinct(ks: seq<string>) {
    forall i, j :: 0 <= i < j < |ks| ==> ks[i] != ks[j]
  }

  /** The value stored under `k`. */
  function Lookup(fields: seq<(string, Json)>, k: string): (r: Option<Json>)
    ensures r.None? <==> k !in Keys(fields)
  {
    if fields == [] then None
    else if fields[0].0 == k then Some(fields[0].1)
    else Lookup(fields[1..], k)
  }

  /** `Map::insert`: a present key keeps its place and takes the new value;
      a new key goes to the end. */
  function Insert(fields: seq<(string, Json)>, k: string, v: Json): seq<(string, Json)> {
    if fields == [] then [(k, v)]
    else if fields[0].0 == k then [(k, v)] + fields[1..]
    else [fields[0]] + Insert(fields[1..], k, v)
  }

  /** After an insert, `k` maps to the new value and every other key keeps its value. */
  lemma {:induction false} InsertLookup(fields: seq<(string, Json)>, k: string, v: Json, k': string)
    ensures Lookup(Insert(fields, k, v), k') == if k' == k then Some(v) else Lookup(fields, k')
  {
    if fields != [] && fields[0].0 != k {
      InsertLookup(fields[1..], k, v, k');
    }
  }

  /** An insert keeps the key order, appending `k` only when it is new. */
  lemma {:induction false} InsertKeys(fields: seq<(string, Json)>, k: string, v: Json)
    ensures Keys(Insert(fields, k, v)) == if k in Keys(fields) then Keys(fields) else Keys(fields) + [k]
  {
    if fields == [] {
    } else if fields[0].0 == k {
      assert Keys(Insert(fields, k, v)) == [k] + Keys(fields[1..]);
    } else {
      InsertKeys(fields[1..], k, v);
      assert Keys(fields) == [fields[0].0] + Keys(fields[1..]);
      assert Keys(Insert(fields, k, v)) == [fields[0].0] + Keys(Insert(fields[1..], k, v));
    }
  }

  /** An insert never creates a duplicate key. */
  lemma InsertUnique(fields: seq<(string, Json)>, k: string, v: Json)
    requires UniqueKeys(fields)
    ensures UniqueKeys(Insert(fields, k, v))
  {
    InsertKeys(fields, k, v);
  }

  /** Builds an object by inserting the pairs one after the other. */
  function FromPairs(pairs: seq<(string, Json)>): seq<(string, Json)> {
    if pairs == [] then []
    else Insert(FromPairs(pairs[..|pairs| - 1]), pairs[|pairs| - 1].0, pairs[|pairs| - 1].1)
  }

  /** The value of the last pair with key `k`. */
  function LastValue(pairs: seq<(string, Json)>, k: string): Option<Json> {
    if pairs == [] then None
    else if pairs[|pairs| - 1].0 == k then Some(pairs[|pairs| - 1].1)
    else LastValue(pairs[..|pairs| - 1], k)
  }

  /** The last pair with key `k` gives its value. */
  lemma {:induction false} LastValueAt(pairs: seq<(string, Json)>, k: string, j: nat)
    requires j < |pairs| && pairs[j].0 == k
    requires forall m :: j < m < |pairs| ==> pairs[m].0 != k
    ensures LastValue(pairs, k) == Some(pairs[j].1)
  {
    if j < |pairs| - 1 {
      LastValueAt(pairs[..|pairs| - 1], k, j);
    }
  }

  /** Building from pairs never creates a duplicate key. */
  lemma {:induction false} FromPairsUnique(pairs: seq<(string, Json)>)
    ensures UniqueKeys(FromPairs(pairs))
  {
    if pairs != [] {
      var init := pairs[..|pairs| - 1];
      FromPairsUnique(init);
      InsertUnique(FromPairs(init), pairs[|pairs| - 1].0, pairs[|pairs| - 1].1);
    }
  }

  lemma KeysSnoc(pairs: seq<(string, Json)>)
    requires pairs != []
    ensures Keys(pairs) == Keys(pairs[..|pairs| - 1]) + [pairs[|pairs| - 1].0]
  {
    var a, b := Keys(pairs), Keys(pairs[..|pairs| - 1]) + [pairs[|pairs| - 1].0];
    var init := pairs[..|pairs| - 1];
    assert |a| == |b|;
    forall i | 0 <= i < |a| ensures a[i] == b[i] {
      if i < |init| {
        assert b[i] == Keys(init)[i] == init[i].0;
      }
    }
  }

  lemma InsertHasKey(fields: seq<(string, Json)>, k: string, v: Json, k': string)
    ensures k' in Keys(Insert(fields, k, v)) <==> k' in Keys(fields) || k' == k
  {
    InsertKeys(fields, k, v);
  }

  /** The keys of the object are the keys of the pairs. */
  lemma {:induction false} FromPairsKeys(pairs: seq<(string, Json)>, k: string)
    ensures k in Keys(FromPairs(pairs)) <==> k in Keys(pairs)
  {
    if pairs != [] {
      var init := pairs[..|pairs| - 1];
      var last := pairs[|pairs| - 1];
      FromPairsKeys(init, k);
      InsertHasKey(FromPairs(init), last.0, last.1, k);
      KeysSnoc(pairs);
    }
  }

  /** Each key holds the value of the LAST pair that carries it. */
  lemma {:induction false} FromPairsValue(pairs: seq<(string, Json)>, k: string)
    ensures Lookup(FromPairs(pairs), k) == LastValue(pairs, k)
  {
    if pairs != [] {
      var init := pairs[..|pairs| - 1];
      var last := pairs[|pairs| - 1];
      FromPairsValue(init, k);
      InsertLookup(FromPairs(init), last.0, last.1, k);
    }
  }

  /** Building from pairs: no key appears twice, the keys are those of the
      pairs, and each key holds the value of the last pair that carries it
      (a later duplicate wins). */
  lemma FromPairsLookup(pairs: seq<(string, Json)>, k: string)
    ensures UniqueKeys(FromPairs(pairs))
    ensures Lookup(FromPairs(pairs), k) == LastValue(pairs, k)
    ensures k in Keys(FromPairs(pairs)) <==> k in Keys(pairs)
  {
    FromPairsUnique(pairs);
    FromPairsValue(pairs, k);
    FromPairsKeys(pairs, k);
  }

  function HexDigit(d: nat): char
    requires d < 16
  {
    "0123456789abcdef"[d]
  }

  /** serde_json's escape of one character inside a string literal. */
  function EscapeChar(c: char): string {
    if c == '"' then "\\\""
    else if c == '\\' then "\\\\"
    else if c == '\n' then "\\n"
    else if c == '\r' then "\\r"
    else if c == '\t' then "\\t"
    else if c as int == 8 then "\\b"
    else if c as int == 12 then "\\f"
    else if c as int < 0x20 then "\\u00" + [HexDigit(c as int / 16), HexDigit(c as int % 16)]
    else [c]
  }

  /** A character that serde_json writes as an escape sequence. */
  predicate NeedsEscape(c: char) {
    c == '"' || c == '\\' || c as int < 0x20
  }

  function Escape(s: string): string {
    if s == [] then [] else EscapeChar(s[0]) + Escape(s[1..])
  }

  /** A string with nothing to escape is written as it is. */
  lemma {:induction false} EscapeIdentity(s: string)
    requires forall i :: 0 <= i < |s| ==> !NeedsEscape(s[i])
    ensures Escape(s) == s
  {
    if s != [] {
      EscapeIdentity(s[1..]);
    }
  }

  function NumText(n: Num): string {
    match n
    case I64(i) => IntToString(i)
    case F64(t) => t
  }

  function Join(parts: seq<string>): string {
    if parts == [] then ""
    else if |parts| == 1 then parts[0]
    else parts[0] + "," + Join(parts[1..])
  }

  /** Compact JSON text of a value, keys written in field order. */
  function JsonText(j: Json): string
    decreases j
  {
    match j
    case Null => "null"
    case Bool(b) => if b then "true" else "false"
    case Number(n) => NumText(n)
    case String(s) => "\"" + Escape(s) + "\""
    case Array(items) =>
      "[" + Join(seq(|items|, i requires 0 <= i < |items| => JsonText(items[i]))) + "]"
    case Object(fields) =>
      "{" + Join(seq(|fields|, i requires 0 <= i < |fields| =>
                   "\"" + Escape(fields[i].0) + "\":" + JsonText(fields[i].1))) + "}"
  }
}
