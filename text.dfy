/** String helpers shared by the model: ASCII upper-casing, decimal rendering,
    substring search and quote trimming. */
module Text {

  /** Upper-cases an ASCII letter; every other character is left alone. */
  function UpperChar(c: char): char {
    if 'a' <= c <= 'z' then (c as int - 32) as char else c
  }

  predicate IsLowerAscii(c: char) {
    'a' <= c <= 'z'
  }

  /** `str::to_uppercase`, restricted to the ASCII letters. */
  function Upper(s: string): (r: string)
    ensures |r| == |s|
    ensures forall i :: 0 <= i < |s| ==> r[i] == UpperChar(s[i])
  {
    if s == [] then [] else [UpperChar(s[0])] + Upper(s[1..])
  }

  /** A string without lower-case ASCII letters is its own upper-case form. */
  lemma UpperFixesUpperCase(s: string)
    requires forall i :: 0 <= i < |s| ==> !IsLowerAscii(s[i])
    ensures Upper(s) == s
  {
    var r := Upper(s);
    assert forall i :: 0 <= i < |s| ==> r[i] == s[i];
  }

  /** Upper-casing twice is upper-casing once. */
  lemma UpperIdempotent(s: string)
    ensures Upper(Upper(s)) == Upper(s)
  {
    var u := Upper(s);
    forall i | 0 <= i < |u| ensures !IsLowerAscii(u[i]) {
      assert u[i] == UpperChar(s[i]);
    }
    UpperFixesUpperCase(u);
  }

  function DigitChar(d: nat): char
    requires d < 10
  {
    "0123456789"[d]
  }

  /** Decimal rendering of a natural number, as Rust's `to_string` gives it. */
  function NatToString(n: nat): (r: string)
    ensures |r| >= 1
    ensures n >= 10 ==> |r| >= 2
    decreases n
  {
    if n < 10 then [DigitChar(n)] else NatToString(n / 10) + [DigitChar(n % 10)]
  }

  /** The only number rendered as "0" is zero. */
  lemma NatToStringZero(n: nat)
    ensures NatToString(n) == "0" <==> n == 0
  {
    if n >= 10 {
      assert |NatToString(n)| >= 2;
    } else if n != 0 {
      assert NatToString(n)[0] == "0123456789"[n];
    }
  }

  /** Decimal rendering of an integer with a leading '-' when negative. */
  function IntToString(i: int): string {
    if i < 0 then "-" + NatToString(-i) else NatToString(i)
  }

  /** `str::contains`: `p` occurs somewhere in `h` (the empty pattern occurs everywhere). */
  predicate Contains(h: string, p: string)
    decreases |h|
  {
    p <= h || (|h| > 0 && Contains(h[1..], p))
  }

  /** `p` occurs in `h` starting at position `i`. */
  predicate OccursAt(h: string, p: string, i: int) {
    0 <= i && i + |p| <= |h| && h[i..i + |p|] == p
  }

  /** An occurrence in the tail is an occurrence one place further on, and back. */
  lemma OccursAtTail(h: string, p: string, i: int)
    requires |h| > 0 && i >= 0
    ensures OccursAt(h[1..], p, i) <==> OccursAt(h, p, i + 1)
  {
    if i + 1 + |p| <= |h| {
      var a, b := h[i + 1..i + 1 + |p|], h[1..][i..i + |p|];
      assert |a| == |b|;
      assert forall j :: 0 <= j < |a| ==> a[j] == h[i + 1 + j] == b[j];
      assert a == b;
    }
  }

  /** An occurrence at the start is a prefix. */
  lemma OccursAtStart(h: string, p: string)
    ensures OccursAt(h, p, 0) <==> p <= h
  {
    if |p| <= |h| {
      assert h[0..|p|] == h[..|p|];
    }
  }

  /** Contains agrees with the positional definition of a substring. */
  lemma {:induction false} ContainsIff(h: string, p: string)
    ensures Contains(h, p) <==> exists i :: OccursAt(h, p, i)
  {
    OccursAtStart(h, p);
    if p <= h {
      assert OccursAt(h, p, 0);
    } else if |h| == 0 {
      assert forall i :: !OccursAt(h, p, i);
    } else {
      ContainsIff(h[1..], p);
      if Contains(h[1..], p) {
        var i :| OccursAt(h[1..], p, i);
        OccursAtTail(h, p, i);
      } else {
        forall i | OccursAt(h, p, i) ensures false {
          if i > 0 {
            OccursAtTail(h, p, i - 1);
          }
        }
      }
    }
  }

  /** The empty pattern is contained in every string. */
  lemma EmptyPatternContained(h: string)
    ensures Contains(h, "")
  {
  }

  function TrimStartQuotes(s: string): (r: string)
    ensures |r| <= |s|
  {
    if |s| > 0 && s[0] == '"' then TrimStartQuotes(s[1..]) else s
  }

  function TrimEndQuotes(s: string): (r: string)
    ensures |r| <= |s|
  {
    if |s| > 0 && s[|s| - 1] == '"' then TrimEndQuotes(s[..|s| - 1]) else s
  }

  /** `str::trim_matches('"')`: drops every leading and every trailing '"'. */
  function TrimQuotes(s: string): string {
    TrimEndQuotes(TrimStartQuotes(s))
  }

  /** Trimming a string that is wrapped in exactly one pair of quotes and holds
      no quote inside gives back the inside. */
  lemma TrimQuotesUnwraps(s: string)
    requires forall i :: 0 <= i < |s| ==> s[i] != '"'
    ensures TrimQuotes("\"" + s + "\"") == s
  {
    var w := "\"" + s + "\"";
    assert w[1..] == s + "\"";
    if s == [] {
      assert TrimStartQuotes(w) == [];
    } else {
      assert (s + "\"")[0] == s[0];
      assert TrimStartQuotes(w) == s + "\"";
      assert (s + "\"")[..|s|] == s;
      assert TrimEndQuotes(s + "\"") == TrimEndQuotes(s);
      assert TrimEndQuotes(s) == s;
    }
  }
}
