/**
 * String helpers shared by the wire formats: the two delimiter characters,
 * removal and replacement of one character, prefixes, joining and splitting on
 * one character, decimal rendering of integers and ASCII lower-casing.
 */
module Text {

  type byte = bv8

  /** Field delimiter of the request bodies (ASCII RS). */
  const RecordSeparator: char := '\U{1E}'
  /** Delimiter inside the added-arguments field (ASCII US). */
  const UnitSeparator: char := '\U{1F}'

  /** `s.replacingOccurrences(of: c, with: "")` for a one-character pattern. */
  function RemoveChar(s: string, c: char): (r: string)
    ensures c !in r
    ensures forall x :: x != c ==> (x in r <==> x in s)
    ensures c !in s ==> r == s
    ensures |r| <= |s|
  {
    if s == [] then []
    else (if s[0] == c then [] else [s[0]]) + RemoveChar(s[1..], c)
  }

  /** `s.replacingOccurrences(of: a, with: b)` for one-character pattern and replacement. */
  function ReplaceChar(s: string, a: char, b: char): (r: string)
    ensures |r| == |s|
    ensures a != b ==> a !in r
    ensures forall x :: x != a && x != b ==> (x in r <==> x in s)
    ensures a !in s ==> r == s
  {
    if s == [] then []
    else [if s[0] == a then b else s[0]] + ReplaceChar(s[1..], a, b)
  }

  /** Replacing a by b and then b by a gives back the input when b did not occur in it. */
  lemma {:induction false} ReplaceCharInverse(s: string, a: char, b: char)
    requires b !in s
    ensures ReplaceChar(ReplaceChar(s, a, b), b, a) == s
  {
    if s != [] {
      ReplaceCharInverse(s[1..], a, b);
    }
  }

  /** Swift's `s.prefix(n)`: the first n characters, or all of s when it is shorter. */
  function Take(s: string, n: nat): (r: string)
    ensures r <= s
    ensures |r| == if |s| <= n then |s| else n
  {
    if |s| <= n then s else s[..n]
  }

  /** The strings of xs with one d between neighbours. */
  function Join(xs: seq<string>, d: char): string
  {
    if |xs| == 0 then ""
    else if |xs| == 1 then xs[0]
    else xs[0] + [d] + Join(xs[1..], d)
  }

  /** Joining is the same built from the left, one string at a time. */
  lemma {:induction false} JoinSnoc(xs: seq<string>, y: string, d: char)
    requires |xs| > 0
    ensures Join(xs + [y], d) == Join(xs, d) + [d] + y
  {
    if |xs| == 1 {
      assert (xs + [y])[1..] == [y];
    } else {
      assert (xs + [y])[1..] == xs[1..] + [y];
      JoinSnoc(xs[1..], y, d);
    }
  }

  /** One more piece joined after a prefix `p`. */
  lemma JoinPiece(p: string, xs: seq<string>, y: string, d: char)
    requires |xs| > 0
    ensures p + Join(xs + [y], d) == p + Join(xs, d) + [d] + y
  {
    JoinSnoc(xs, y, d);
  }

  /** The pieces of s between occurrences of d (`s.split(separator: d, omittingEmptySubsequences: false)`). */
  function Split(s: string, d: char): (r: seq<string>)
    ensures |r| >= 1
    ensures forall i :: 0 <= i < |r| ==> d !in r[i]
  {
    if s == [] then [""]
    else
      var rest := Split(s[1..], d);
      if s[0] == d then [""] + rest else [[s[0]] + rest[0]] + rest[1..]
  }

  /** The pieces of every string of xs, in order. */
  function SplitAll(xs: seq<string>, d: char): seq<string>
  {
    if xs == [] then [] else Split(xs[0], d) + SplitAll(xs[1..], d)
  }

  lemma {:induction false} SplitWithoutSeparator(s: string, d: char)
    requires d !in s
    ensures Split(s, d) == [s]
  {
    if s != [] {
      SplitWithoutSeparator(s[1..], d);
      assert [s[0]] + s[1..] == s;
    }
  }

  lemma {:induction false} SplitConcat(a: string, b: string, d: char)
    ensures Split(a + [d] + b, d) == Split(a, d) + Split(b, d)
  {
    if a == [] {
      assert a + [d] + b == [d] + b;
      assert ([d] + b)[1..] == b;
    } else {
      assert (a + [d] + b)[1..] == a[1..] + [d] + b;
      SplitConcat(a[1..], b, d);
    }
  }

  /** Splitting a join gives back the pieces of the joined strings. */
  lemma {:induction false} SplitJoin(xs: seq<string>, d: char)
    requires |xs| > 0
    ensures Split(Join(xs, d), d) == SplitAll(xs, d)
  {
    if |xs| == 1 {
      assert SplitAll(xs[1..], d) == [];
    } else {
      SplitConcat(xs[0], Join(xs[1..], d), d);
      SplitJoin(xs[1..], d);
    }
  }

  /** Splitting a join of strings free of d gives back exactly those strings. */
  lemma {:induction false} SplitJoinFields(xs: seq<string>, d: char)
    requires |xs| > 0
    requires forall i :: 0 <= i < |xs| ==> d !in xs[i]
    ensures Split(Join(xs, d), d) == xs
  {
    SplitJoin(xs, d);
    SplitAllFields(xs, d);
  }

  lemma {:induction false} SplitAllFields(xs: seq<string>, d: char)
    requires forall i :: 0 <= i < |xs| ==> d !in xs[i]
    ensures SplitAll(xs, d) == xs
  {
    if xs != [] {
      SplitWithoutSeparator(xs[0], d);
      SplitAllFields(xs[1..], d);
    }
  }

  function DigitChar(n: nat): (c: char)
    requires n < 10
    ensures '0' <= c <= '9'
  {
    ('0' as int + n) as char
  }

  predicate IsDecimal(s: string)
  {
    forall i :: 0 <= i < |s| ==> '0' <= s[i] <= '9'
  }

  /** Swift's `"\(n)"` for a non-negative Int. */
  function NatToString(n: nat): (r: string)
    ensures |r| >= 1 && IsDecimal(r)
  {
    if n < 10 then [DigitChar(n)] else NatToString(n / 10) + [DigitChar(n % 10)]
  }

  /** The value of a string of decimal digits. */
  function DecimalValue(s: string): nat
    requires IsDecimal(s)
  {
    if s == [] then 0 else 10 * DecimalValue(s[..|s| - 1]) + (s[|s| - 1] as int - '0' as int)
  }

  lemma {:induction false} NatToStringValue(n: nat)
    ensures DecimalValue(NatToString(n)) == n
  {
    if n >= 10 {
      var s := NatToString(n);
      assert s[..|s| - 1] == NatToString(n / 10);
      NatToStringValue(n / 10);
    }
  }

  /** Swift's `"\(i)"` for any Int. */
  function IntToString(i: int): (r: string)
    ensures |r| >= 1
    ensures forall k :: 0 <= k < |r| ==> r[k] == '-' || '0' <= r[k] <= '9'
    ensures i >= 0 ==> IsDecimal(r) && DecimalValue(r) == i
    ensures i < 0 ==> r[0] == '-' && IsDecimal(r[1..]) && DecimalValue(r[1..]) == -i
  {
    if i < 0 then
      NatToStringValue(-i);
      assert ("-" + NatToString(-i))[1..] == NatToString(-i);
      "-" + NatToString(-i)
    else
      NatToStringValue(i);
      NatToString(i)
  }

  predicate IsUpper(c: char)
  {
    'A' <= c <= 'Z'
  }

  function LowerChar(c: char): (r: char)
    ensures !IsUpper(r)
    ensures !IsUpper(c) ==> r == c
    ensures IsUpper(c) ==> r as int == c as int + 32
  {
    if IsUpper(c) then (c as int + 32) as char else c
  }

  /** `s.lowercased()`, restricted to the ASCII letters. */
  function Lowercased(s: string): (r: string)
    ensures |r| == |s|
    ensures forall i :: 0 <= i < |r| ==> !IsUpper(r[i])
    ensures (forall i :: 0 <= i < |s| ==> !IsUpper(s[i])) ==> r == s
  {
    if s == [] then [] else [LowerChar(s[0])] + Lowercased(s[1..])
  }
}
