/**
 * The Java and Kotlin string operations the library relies on, over `seq<char>`:
 * prefix and substring tests, `indexOf`/`lastIndexOf`, the splitting rules of
 * `String.split`, Kotlin's `replace`, ASCII case folding and decimal rendering.
 */
module Strings {

  predicate StartsWith(s: string, prefix: string) {
    |prefix| <= |s| && s[..|prefix|] == prefix
  }

  predicate EndsWith(s: string, suffix: string) {
    |suffix| <= |s| && s[|s| - |suffix|..] == suffix
  }

  /** `p` occurs in `s` starting at index `i`. */
  predicate OccursAt(s: string, p: string, i: int) {
    0 <= i && i + |p| <= |s| && s[i..i + |p|] == p
  }

  /** Java's `String.contains`. */
  predicate Contains(s: string, p: string) {
    exists i | 0 <= i <= |s| :: OccursAt(s, p, i)
  }

  lemma ContainsChar(s: string, c: char)
    ensures Contains(s, [c]) <==> c in s
  {
    if c in s {
      var i :| 0 <= i < |s| && s[i] == c;
      assert OccursAt(s, [c], i);
    }
    if Contains(s, [c]) {
      var i :| 0 <= i <= |s| && OccursAt(s, [c], i);
      assert s[i] == s[i..i + 1][0];
    }
  }

  /** The first occurrence of `p` at or after `from`, or -1. */
  function IndexOfFrom(s: string, p: string, from: nat): (r: int)
    ensures r == -1 || (from <= r && OccursAt(s, p, r))
    ensures forall j :: from <= j && (r == -1 || j < r) ==> !OccursAt(s, p, j)
    decreases |s| - from
  {
    if from + |p| > |s| then -1
    else if s[from..from + |p|] == p then from
    else IndexOfFrom(s, p, from + 1)
  }

  /** Java's `String.indexOf(String)`: the first occurrence of `p`, or -1. */
  function IndexOf(s: string, p: string): (r: int)
    ensures r == -1 <==> !Contains(s, p)
    ensures r != -1 ==> OccursAt(s, p, r) && forall j :: 0 <= j < r ==> !OccursAt(s, p, j)
  {
    IndexOfFrom(s, p, 0)
  }

  /** The last occurrence of `p` that starts at or before `k`, or -1. */
  function LastIndexOfUpTo(s: string, p: string, k: int): (r: int)
    ensures r == -1 || (r <= k && OccursAt(s, p, r))
    ensures forall j :: r < j <= k ==> !OccursAt(s, p, j)
    decreases if k < 0 then 0 else k + 1
  {
    if k < 0 then -1
    else if OccursAt(s, p, k) then k
    else LastIndexOfUpTo(s, p, k - 1)
  }

  /** Java's `String.lastIndexOf(String)`: the last occurrence of `p`, or -1. */
  function LastIndexOf(s: string, p: string): (r: int)
    ensures r == -1 <==> !Contains(s, p)
    ensures r != -1 ==> OccursAt(s, p, r) && forall j :: r < j ==> !OccursAt(s, p, j)
  {
    LastIndexOfUpTo(s, p, |s| - |p|)
  }

  /** Java's `String.indexOf(char)`. */
  function IndexOfChar(s: string, c: char): (r: int)
    ensures r == -1 <==> c !in s
    ensures r != -1 ==> 0 <= r < |s| && s[r] == c && c !in s[..r]
  {
    if s == [] then -1
    else if s[0] == c then 0
    else
      var r := IndexOfChar(s[1..], c);
      assert s == [s[0]] + s[1..];
      if r == -1 then -1
      else
        assert s[..r + 1] == [s[0]] + s[1..][..r];
        r + 1
  }

  /** Java's `String.lastIndexOf(char)`. */
  function LastIndexOfChar(s: string, c: char): (r: int)
    ensures r == -1 <==> c !in s
    ensures r != -1 ==> 0 <= r < |s| && s[r] == c && c !in s[r + 1..]
  {
    if s == [] then -1
    else if s[|s| - 1] == c then |s| - 1
    else
      assert s == s[..|s| - 1] + [s[|s| - 1]];
      var r := LastIndexOfChar(s[..|s| - 1], c);
      assert r != -1 ==> s[r + 1..] == s[..|s| - 1][r + 1..] + [s[|s| - 1]];
      r
  }

  /** The pieces of `parts` glued back together with `sep` between them. */
  function JoinWith(parts: seq<string>, sep: string): string {
    if parts == [] then ""
    else if |parts| == 1 then parts[0]
    else parts[0] + sep + JoinWith(parts[1..], sep)
  }

  /** The pieces of `s` between occurrences of `c`, empty pieces included. */
  function SplitAll(s: string, c: char): (r: seq<string>)
    ensures |r| >= 1
    ensures forall i :: 0 <= i < |r| ==> c !in r[i]
    decreases |s|
  {
    var i := IndexOfChar(s, c);
    if i == -1 then [s] else [s[..i]] + SplitAll(s[i + 1..], c)
  }

  /** Splitting and joining on the same separator gives the string back. */
  lemma {:induction false} JoinSplitAll(s: string, c: char)
    ensures JoinWith(SplitAll(s, c), [c]) == s
    decreases |s|
  {
    var i := IndexOfChar(s, c);
    if i != -1 {
      JoinSplitAll(s[i + 1..], c);
      var rest := SplitAll(s[i + 1..], c);
      assert SplitAll(s, c) == [s[..i]] + rest;
      assert s == s[..i] + [c] + s[i + 1..];
    }
  }

  /** Joining pieces that do not contain the separator and splitting again gives the pieces back. */
  lemma {:induction false} SplitAllJoin(parts: seq<string>, c: char)
    requires |parts| >= 1
    requires forall i :: 0 <= i < |parts| ==> c !in parts[i]
    ensures SplitAll(JoinWith(parts, [c]), c) == parts
  {
    if |parts| > 1 {
      var s := JoinWith(parts, [c]);
      var head := parts[0];
      assert s == head + [c] + JoinWith(parts[1..], [c]);
      assert s[|head|] == c;
      assert s[..|head|] == head;
      assert IndexOfChar(s, c) == |head|;
      assert s[|head| + 1..] == JoinWith(parts[1..], [c]);
      SplitAllJoin(parts[1..], c);
      assert parts == [head] + parts[1..];
    }
  }

  /** `parts` with its trailing empty strings removed. */
  function DropTrailingEmpty(parts: seq<string>): (r: seq<string>)
    ensures |r| <= |parts| && r == parts[..|r|]
    ensures r == [] || r[|r| - 1] != ""
    ensures forall i :: |r| <= i < |parts| ==> parts[i] == ""
  {
    if parts == [] then []
    else if parts[|parts| - 1] == "" then DropTrailingEmpty(parts[..|parts| - 1])
    else parts
  }

  /**
   * Java's `String.split` on a one-character literal pattern with limit 0: a
   * string without the separator is returned whole (even when empty); otherwise
   * the pieces are returned with trailing empty pieces removed.
   */
  function JavaSplit(s: string, c: char): (r: seq<string>)
    ensures c !in s ==> r == [s]
    ensures c in s ==> r == DropTrailingEmpty(SplitAll(s, c))
  {
    if c !in s then [s] else DropTrailingEmpty(SplitAll(s, c))
  }

  /** Java's `String.split` on a one-character literal pattern with limit 2. */
  function SplitFirst(s: string, c: char): (r: seq<string>)
    ensures c !in s <==> r == [s]
    ensures |r| == 2 <==> c in s
    ensures |r| == 2 ==> r[0] + [c] + r[1] == s && c !in r[0]
  {
    var i := IndexOfChar(s, c);
    if i == -1 then [s]
    else
      assert s == s[..i] + [c] + s[i + 1..];
      [s[..i], s[i + 1..]]
  }

  /** Kotlin's `split(delimiter)[0]`: the text before the first occurrence of `d`, or all of `s`. */
  function BeforeFirst(s: string, d: string): (r: string)
    ensures StartsWith(s, r)
    ensures Contains(s, d) ==> OccursAt(s, d, |r|) && forall j :: 0 <= j < |r| ==> !OccursAt(s, d, j)
    ensures !Contains(s, d) ==> r == s
  {
    var i := IndexOf(s, d);
    if i == -1 then s else s[..i]
  }

  /** A prefix of `s` that ends before the first occurrence of `p` does not contain `p`. */
  lemma NoOccurrenceBefore(s: string, p: string, i: int)
    requires p != "" && 0 <= i <= |s|
    requires forall j :: 0 <= j < i ==> !OccursAt(s, p, j)
    ensures !Contains(s[..i], p)
  {
    forall j | 0 <= j <= i
      ensures !OccursAt(s[..i], p, j)
    {
      if j + |p| <= i {
        assert s[..i][j..j + |p|] == s[j..j + |p|];
        assert j < i && !OccursAt(s, p, j);
      }
    }
  }

  lemma Around(s: string, p: string, i: int)
    requires OccursAt(s, p, i)
    ensures s == s[..i] + p + s[i + |p|..]
  {
    assert s == s[..i] + s[i..i + |p|] + s[i + |p|..];
  }

  lemma NoneContainsCons(first: string, rest: seq<string>, pat: string)
    requires !Contains(first, pat) && forall k :: 0 <= k < |rest| ==> !Contains(rest[k], pat)
    ensures forall k :: 0 <= k < |[first] + rest| ==> !Contains(([first] + rest)[k], pat)
  {
    forall k | 0 <= k < |[first] + rest|
      ensures !Contains(([first] + rest)[k], pat)
    {
      if k > 0 {
        assert ([first] + rest)[k] == rest[k - 1];
      }
    }
  }

  /**
   * The pieces of `s` between the occurrences of `pat` found left to right,
   * each search starting after the previous occurrence.
   */
  function SplitOn(s: string, pat: string): (r: seq<string>)
    requires pat != ""
    ensures |r| >= 1
    decreases |s|
  {
    var i := IndexOf(s, pat);
    if i == -1 then [s] else [s[..i]] + SplitOn(s[i + |pat|..], pat)
  }

  /** One step of `SplitOn` at the first occurrence `i` of the pattern. */
  lemma SplitOnStep(s: string, pat: string, i: int)
    requires pat != "" && i == IndexOf(s, pat) && i != -1
    ensures SplitOn(s, pat) == [s[..i]] + SplitOn(s[i + |pat|..], pat)
  {
  }

  /**
   * Every piece of `SplitOn` is free of the pattern, there is more than one
   * piece exactly when the text contains it, and the first separator is its
   * first occurrence.
   */
  lemma {:induction false} SplitOnPieces(s: string, pat: string)
    requires pat != ""
    ensures var r := SplitOn(s, pat);
      && (forall k :: 0 <= k < |r| ==> !Contains(r[k], pat))
      && (|r| == 1 <==> !Contains(s, pat))
      && (|r| > 1 ==> OccursAt(s, pat, |r[0]|) && forall j :: 0 <= j < |r[0]| ==> !OccursAt(s, pat, j))
    decreases |s|
  {
    var i := IndexOf(s, pat);
    if i != -1 {
      NoOccurrenceBefore(s, pat, i);
      var rest := SplitOn(s[i + |pat|..], pat);
      SplitOnPieces(s[i + |pat|..], pat);
      SplitOnStep(s, pat, i);
      NoneContainsCons(s[..i], rest, pat);
    }
  }

  lemma JoinWithCons(first: string, rest: seq<string>, sep: string)
    requires |rest| >= 1
    ensures JoinWith([first] + rest, sep) == first + sep + JoinWith(rest, sep)
  {
    assert ([first] + rest)[1..] == rest;
  }

  /** Joining the pieces with the pattern gives the string back. */
  lemma {:induction false} JoinSplitOn(s: string, pat: string)
    requires pat != ""
    ensures JoinWith(SplitOn(s, pat), pat) == s
    decreases |s|
  {
    var i := IndexOf(s, pat);
    if i == -1 {
      assert SplitOn(s, pat) == [s];
    } else {
      var tail := s[i + |pat|..];
      var rest := SplitOn(tail, pat);
      JoinSplitOn(tail, pat);
      SplitOnStep(s, pat, i);
      JoinWithCons(s[..i], rest, pat);
      Around(s, pat, i);
    }
  }

  /** Kotlin's `String.replace(old, new)`: every non-overlapping occurrence, left to right. */
  function ReplaceAll(s: string, pat: string, rep: string): (r: string)
    requires pat != ""
    ensures !Contains(s, pat) ==> r == s
    decreases |s|
  {
    var i := IndexOf(s, pat);
    if i == -1 then s else s[..i] + rep + ReplaceAll(s[i + |pat|..], pat, rep)
  }

  lemma ReplaceAllStep(s: string, pat: string, rep: string, i: int)
    requires pat != "" && i == IndexOf(s, pat) && i != -1
    ensures ReplaceAll(s, pat, rep) == s[..i] + rep + ReplaceAll(s[i + |pat|..], pat, rep)
  {
  }

  /** `replace` swaps each separator of `SplitOn` for the replacement and keeps the pieces. */
  lemma {:induction false} ReplaceAllJoinsPieces(s: string, pat: string, rep: string)
    requires pat != ""
    ensures ReplaceAll(s, pat, rep) == JoinWith(SplitOn(s, pat), rep)
    decreases |s|
  {
    var i := IndexOf(s, pat);
    if i == -1 {
      assert SplitOn(s, pat) == [s];
    } else {
      var tail := s[i + |pat|..];
      var rest := SplitOn(tail, pat);
      ReplaceAllJoinsPieces(tail, pat, rep);
      SplitOnStep(s, pat, i);
      JoinWithCons(s[..i], rest, rep);
      ReplaceAllStep(s, pat, rep, i);
    }
  }

  function LowerChar(c: char): char {
    if 'A' <= c <= 'Z' then (c as int + 32) as char else c
  }

  /** ASCII lower-casing, the part of Java's case folding that HTTP header names use. */
  function ToLowerAscii(s: string): (r: string)
    ensures |r| == |s|
  {
    seq(|s|, i requires 0 <= i < |s| => LowerChar(s[i]))
  }

  /** Java's `equalsIgnoreCase` restricted to ASCII letters. */
  predicate EqualsIgnoreCase(a: string, b: string) {
    ToLowerAscii(a) == ToLowerAscii(b)
  }

  function DigitChar(d: nat): (c: char)
    requires d < 10
    ensures '0' <= c <= '9'
  {
    ('0' as int + d) as char
  }

  /** Decimal rendering of a natural number, as `Long.toString` prints it. */
  function NatToString(n: nat): (r: string)
    ensures |r| >= 1
    ensures n >= 10 ==> |r| >= 2
    ensures forall i :: 0 <= i < |r| ==> '0' <= r[i] <= '9'
  {
    if n < 10 then [DigitChar(n)] else NatToString(n / 10) + [DigitChar(n % 10)]
  }

  /** Distinct numbers have distinct renderings. */
  lemma {:induction false} NatToStringInjective(a: nat, b: nat)
    requires NatToString(a) == NatToString(b)
    ensures a == b
  {
    if a >= 10 && b >= 10 {
      var sa, sb := NatToString(a), NatToString(b);
      assert sa[..|sa| - 1] == NatToString(a / 10);
      assert sb[..|sb| - 1] == NatToString(b / 10);
      NatToStringInjective(a / 10, b / 10);
      assert DigitChar(a % 10) == sa[|sa| - 1] == DigitChar(b % 10);
    } else if a < 10 && b < 10 {
      assert DigitChar(a) == NatToString(a)[0] == DigitChar(b);
    }
  }

  /** `Integer.toString`. */
  function IntToString(i: int): (r: string)
    ensures i < 0 <==> StartsWith(r, "-")
  {
    if i < 0 then "-" + NatToString(-i)
    else
      assert NatToString(i)[0] != '-';
      NatToString(i)
  }

  /** `Boolean.toString`. */
  function BoolToString(b: bool): string {
    if b then "true" else "false"
  }
}
