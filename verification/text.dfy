/**
 * The string operations the pitch and the position test use: Python's
 * `sep.join(parts)`, `str.lower()` (ASCII letters) and `str(n)` for an int.
 */
module Text {

  /** `sep.join(parts)`: the parts in order with `sep` between neighbours. */
  function Join(sep: string, parts: seq<string>): string
  {
    if |parts| == 0 then ""
    else if |parts| == 1 then parts[0]
    else parts[0] + sep + Join(sep, parts[1..])
  }

  /** Where `parts[i]` starts inside `Join(sep, parts)`. */
  function Offset(sep: string, parts: seq<string>, i: nat): nat
    requires i < |parts|
  {
    if i == 0 then 0 else |parts[0]| + |sep| + Offset(sep, parts[1..], i - 1)
  }

  /**
   * The joined text holds every part, unchanged and in its original order, at
   * its offset, followed by the separator unless it is the last part.
   */
  lemma {:induction false} JoinAt(sep: string, parts: seq<string>, i: nat)
    requires i < |parts|
    ensures Offset(sep, parts, i) + |parts[i]| <= |Join(sep, parts)|
    ensures Join(sep, parts)[Offset(sep, parts, i)..Offset(sep, parts, i) + |parts[i]|] == parts[i]
    ensures i + 1 < |parts| ==>
      Offset(sep, parts, i + 1) == Offset(sep, parts, i) + |parts[i]| + |sep|
    ensures i + 1 < |parts| ==>
      Offset(sep, parts, i + 1) <= |Join(sep, parts)| &&
      Join(sep, parts)[Offset(sep, parts, i) + |parts[i]|..Offset(sep, parts, i + 1)] == sep
  {
    var j := Join(sep, parts);
    if |parts| == 1 {
      assert j == parts[0];
    } else {
      var rest := parts[1..];
      var r := Join(sep, rest);
      var head := parts[0] + sep;
      var k := |head|;
      assert j == head + r;
      if i == 0 {
        ConcatSlices(parts[0], sep);
        ConcatSlices(head, r);
        assert j[..k] == head;
        assert Offset(sep, parts, 1) == k;
      } else {
        JoinAt(sep, rest, i - 1);
        var o := Offset(sep, rest, i - 1);
        assert Offset(sep, parts, i) == k + o;
        assert rest[i - 1] == parts[i];
        SliceAfterPrefix(head, r, o, o + |parts[i]|);
        if i + 1 < |parts| {
          var o' := Offset(sep, rest, i);
          assert Offset(sep, parts, i + 1) == k + o';
          SliceAfterPrefix(head, r, o + |parts[i]|, o');
        }
      }
    }
  }

  /** The two halves of a concatenation can be read back by slicing. */
  lemma ConcatSlices<T>(a: seq<T>, b: seq<T>)
    ensures (a + b)[..|a|] == a && (a + b)[|a|..] == b
  {
  }

  /** A slice behind a prefix is the same slice of what follows the prefix. */
  lemma SliceAfterPrefix<T>(prefix: seq<T>, s: seq<T>, lo: nat, hi: nat)
    requires lo <= hi <= |s|
    ensures (prefix + s)[|prefix| + lo..|prefix| + hi] == s[lo..hi]
  {
  }

  /** Nothing else is in the joined text: it ends right after the last part. */
  lemma {:induction false} JoinLength(sep: string, parts: seq<string>)
    requires |parts| > 0
    ensures |Join(sep, parts)| == Offset(sep, parts, |parts| - 1) + |parts[|parts| - 1]|
  {
    if |parts| > 1 {
      var rest := parts[1..];
      JoinLength(sep, rest);
      assert Join(sep, parts) == parts[0] + sep + Join(sep, rest);
      assert Offset(sep, parts, |parts| - 1) == |parts[0]| + |sep| + Offset(sep, rest, |rest| - 1);
      assert parts[|parts| - 1] == rest[|rest| - 1];
    }
  }

  function LowerChar(c: char): (d: char)
    ensures 'A' <= c <= 'Z' ==> 'a' <= d <= 'z' && d as int - 'a' as int == c as int - 'A' as int
    ensures !('A' <= c <= 'Z') ==> d == c
  {
    if 'A' <= c <= 'Z' then (c as int - 'A' as int + 'a' as int) as char else c
  }

  /** `s.lower()` on ASCII text: upper-case letters become lower-case. */
  function Lower(s: string): (t: string)
    ensures |t| == |s|
    ensures forall i :: 0 <= i < |s| ==> t[i] == LowerChar(s[i])
  {
    seq(|s|, i requires 0 <= i < |s| => LowerChar(s[i]))
  }

  /** Lowering twice is lowering once. */
  lemma LowerIdempotent(s: string)
    ensures Lower(Lower(s)) == Lower(s)
  {
  }

  function DigitChar(d: int): (c: char)
    requires 0 <= d < 10
    ensures '0' <= c <= '9'
    ensures c as int - '0' as int == d
  {
    (d + '0' as int) as char
  }

  predicate AllDigits(s: string)
  {
    forall i :: 0 <= i < |s| ==> '0' <= s[i] <= '9'
  }

  /** The number a string of decimal digits denotes. */
  function DigitsValue(s: string): nat
    requires AllDigits(s)
  {
    if s == [] then 0
    else DigitsValue(s[..|s| - 1]) * 10 + (s[|s| - 1] as int - '0' as int)
  }

  /** `str(n)` for a non-negative int: decimal digits, no leading zero. */
  function NatToString(n: nat): (s: string)
    ensures |s| >= 1 && AllDigits(s)
    ensures n > 0 ==> s[0] != '0'
    ensures s[0] == '0' ==> s == "0"
  {
    if n < 10 then [DigitChar(n)] else NatToString(n / 10) + [DigitChar(n % 10)]
  }

  /** `str(n)` for any int: a minus sign before the digits of a negative one. */
  function IntToString(n: int): (s: string)
    ensures |s| >= 1
    ensures n < 0 <==> s[0] == '-'
    ensures n >= 0 ==> s == NatToString(n)
    ensures n < 0 ==> s[1..] == NatToString(-n)
  {
    if n < 0 then "-" + NatToString(-n) else NatToString(n)
  }

  /** Reading back the digits after any minus sign gives the rendered int. */
  lemma IntToStringRoundTrip(n: int)
    ensures var s := IntToString(n);
      if s[0] == '-' then AllDigits(s[1..]) && DigitsValue(s[1..]) == -n
      else AllDigits(s) && DigitsValue(s) == n
  {
    if n < 0 {
      NatToStringRoundTrip(-n);
    } else {
      NatToStringRoundTrip(n);
    }
  }

  /** Reading the digits back gives the number that was rendered. */
  lemma {:induction false} NatToStringRoundTrip(n: nat)
    ensures DigitsValue(NatToString(n)) == n
  {
    var s := NatToString(n);
    if n >= 10 {
      NatToStringRoundTrip(n / 10);
      assert s[..|s| - 1] == NatToString(n / 10);
    }
  }
}
