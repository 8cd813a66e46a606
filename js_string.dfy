/**
 * The few JavaScript string primitives the modelled code relies on:
 * `String.prototype.slice` with its negative-index rules, `includes`, and
 * the decimal rendering of an integer inside a template literal.
 */
module JsString {
  import opened Wrappers

  /** JavaScript truthiness of a nullable string: `null`, `undefined` and `''` are falsy. */
  predicate Truthy(s: Option<string>)
  {
    s.Some? && s.value != ""
  }

  /**
   * How `slice` normalises one index argument against a string of length
   * `len`: a negative index counts back from the end, and the result is
   * clamped to `0..len`.
   */
  function ClampIndex(len: nat, k: int): (r: nat)
    ensures r <= len
    ensures 0 <= k <= len ==> r == k
    ensures len < k ==> r == len
    ensures k < 0 && 0 <= len + k ==> r == len + k
    ensures len + k < 0 ==> r == 0
  {
    if k < 0 then (if len + k < 0 then 0 else len + k)
    else if k < len then k else len
  }

  /**
   * `s.slice(start, end)`: the characters from the normalised start up to the
   * normalised end, and nothing when the end does not lie past the start.
   * The clauses below cover every combination of a start and an end that is
   * before the string, counted from its end, inside it, or past it.
   */
  function Slice(s: string, start: int, end: int): (r: string)
    ensures |r| <= |s|
    // both indices inside the string
    ensures 0 <= start <= end <= |s| ==> r == s[start..end]
    ensures 0 <= end <= start ==> r == []
    // a negative start counts back from the end
    ensures -|s| <= start < 0 && |s| + start <= end <= |s| ==> r == s[|s| + start..end]
    ensures start < 0 && 0 <= end <= |s| + start ==> r == []
    ensures -|s| <= start < 0 && |s| <= end ==> r == s[|s| + start..]
    // a start before the string reads as 0
    ensures start < -|s| && 0 <= end <= |s| ==> r == s[..end]
    ensures start < -|s| && -|s| <= end < 0 ==> r == s[..|s| + end]
    ensures start < -|s| && |s| <= end ==> r == s
    // a negative end counts back from the end
    ensures 0 <= start <= |s| + end && -|s| <= end < 0 ==> r == s[start..|s| + end]
    ensures 0 <= start && end < 0 && |s| + end <= start ==> r == []
    ensures -|s| <= start < 0 && -|s| <= end < 0 ==>
              r == if start < end then s[|s| + start..|s| + end] else []
    // an end before the string, or a start at or past its end, gives nothing
    ensures end < -|s| ==> r == []
    ensures |s| <= start ==> r == []
    // an end past the string reads as its length
    ensures 0 <= start <= |s| <= end ==> r == s[start..]
  {
    var from, to := ClampIndex(|s|, start), ClampIndex(|s|, end);
    if from < to then s[from..to] else []
  }

  /** `s.slice(start)`: the end defaults to the length of the string. */
  function SliceFrom(s: string, start: int): (r: string)
    ensures r == s[ClampIndex(|s|, start)..]
  {
    Slice(s, start, |s|)
  }

  /** `sub` occurs in `s` starting at position `i`. */
  ghost predicate OccursAt(s: string, sub: string, i: int)
  {
    0 <= i && i + |sub| <= |s| && s[i..i + |sub|] == sub
  }

  /** `s.includes(sub)`, scanning `s` from the left; the empty string is found everywhere. */
  function Includes(s: string, sub: string): (b: bool)
    ensures b ==> |sub| <= |s|
    ensures sub == [] ==> b
    decreases |s|
  {
    if |sub| <= |s| && s[..|sub|] == sub then true
    else if |s| == 0 then false
    else Includes(s[1..], sub)
  }

  /** An occurrence in the tail of `s` is an occurrence in `s` one position later. */
  lemma OccursAtTail(s: string, sub: string, i: int)
    requires |s| > 0 && 0 <= i
    ensures OccursAt(s[1..], sub, i) <==> OccursAt(s, sub, i + 1)
  {
    if i + |sub| <= |s| - 1 {
      assert s[1..][i..i + |sub|] == s[i + 1..i + 1 + |sub|];
    }
  }

  /** `Includes` holds exactly when `sub` occurs somewhere in `s`. */
  lemma {:induction false} IncludesIff(s: string, sub: string)
    ensures Includes(s, sub) <==> exists i :: OccursAt(s, sub, i)
    decreases |s|
  {
    if |sub| <= |s| && s[..|sub|] == sub {
      assert OccursAt(s, sub, 0);
    } else if |s| == 0 {
    } else {
      IncludesIff(s[1..], sub);
      if exists i :: OccursAt(s[1..], sub, i) {
        var i :| OccursAt(s[1..], sub, i);
        OccursAtTail(s, sub, i);
      }
      if exists i :: OccursAt(s, sub, i) {
        var i :| OccursAt(s, sub, i);
        assert i != 0;
        OccursAtTail(s, sub, i - 1);
      }
    }
  }

  /** A piece of a longer string is found by `Includes`. */
  lemma IncludesInfix(a: string, sub: string, b: string)
    ensures Includes(a + sub + b, sub)
  {
    var s := a + sub + b;
    assert s[|a|..|a| + |sub|] == sub;
    assert OccursAt(s, sub, |a|);
    IncludesIff(s, sub);
  }

  function DigitChar(d: nat): (c: char)
    requires d < 10
    ensures '0' <= c <= '9' && c as int == '0' as int + d
  {
    ('0' as int + d) as char
  }

  function DigitValue(c: char): (d: nat)
    requires '0' <= c <= '9'
    ensures d < 10 && DigitChar(d) == c
  {
    c as int - '0' as int
  }

  ghost predicate AllDigits(s: string)
  {
    forall i :: 0 <= i < |s| ==> '0' <= s[i] <= '9'
  }

  /** Decimal digits of a natural number, most significant first, without leading zeros. */
  function NatToString(n: nat): (s: string)
    ensures |s| >= 1 && AllDigits(s)
    ensures |s| > 1 ==> s[0] != '0'
  {
    if n < 10 then [DigitChar(n)] else NatToString(n / 10) + [DigitChar(n % 10)]
  }

  /** `${n}` for an integer `n`. */
  function IntToString(n: int): (s: string)
    ensures |s| >= 1
    ensures n < 0 <==> s[0] == '-'
  {
    if n < 0 then "-" + NatToString(-n) else NatToString(n)
  }

  /** Reads back a string of decimal digits. */
  function ParseNat(s: string): nat
    requires AllDigits(s)
  {
    if s == [] then 0 else 10 * ParseNat(s[..|s| - 1]) + DigitValue(s[|s| - 1])
  }

  /** Reads back an optionally negated string of decimal digits. */
  function ParseInt(s: string): int
    requires |s| >= 1
    requires s[0] == '-' ==> AllDigits(s[1..])
    requires s[0] != '-' ==> AllDigits(s)
  {
    if s[0] == '-' then 0 - ParseNat(s[1..]) else ParseNat(s)
  }

  lemma {:induction false} NatToStringRoundTrip(n: nat)
    ensures ParseNat(NatToString(n)) == n
  {
    var s := NatToString(n);
    if n >= 10 {
      var q, d := n / 10, n % 10;
      NatToStringRoundTrip(q);
      assert s == NatToString(q) + [DigitChar(d)];
      assert s[..|s| - 1] == NatToString(q);
      assert DigitValue(s[|s| - 1]) == d;
      assert n == 10 * q + d;
    }
  }

  /** The decimal rendering of an integer determines the integer. */
  lemma IntToStringRoundTrip(n: int)
    ensures var s := IntToString(n);
            (s[0] == '-' ==> AllDigits(s[1..])) && (s[0] != '-' ==> AllDigits(s)) &&
            ParseInt(s) == n
  {
    if n < 0 {
      assert IntToString(n)[1..] == NatToString(-n);
      NatToStringRoundTrip(-n);
    } else {
      NatToStringRoundTrip(n);
    }
  }
}
