/**
 * The string operations the application relies on: ASCII case folding
 * (`toLowerCase`), substring search (`includes`) and the first field of a
 * `split` (`s.split(c)[0]`).
 */
module Strings {
  import opened Wrappers

  function LowerChar(c: char): char {
    if 'A' <= c <= 'Z' then (c as int + 32) as char else c
  }

  function UpperChar(c: char): char {
    if 'a' <= c <= 'z' then (c as int - 32) as char else c
  }

  /** `s.toLowerCase()`, restricted to the ASCII letters. */
  function ToLower(s: string): (r: string)
    ensures |r| == |s|
    ensures forall i :: 0 <= i < |s| ==> r[i] == LowerChar(s[i])
  {
    seq(|s|, i requires 0 <= i < |s| => LowerChar(s[i]))
  }

  /** `s.toUpperCase()`, restricted to the ASCII letters. */
  function ToUpper(s: string): (r: string)
    ensures |r| == |s|
    ensures forall i :: 0 <= i < |s| ==> r[i] == UpperChar(s[i])
  {
    seq(|s|, i requires 0 <= i < |s| => UpperChar(s[i]))
  }

  /** A string without upper-case letters is its own lower case. */
  lemma ToLowerOfLower(s: string)
    requires forall i :: 0 <= i < |s| ==> !('A' <= s[i] <= 'Z')
    ensures ToLower(s) == s
  {
  }

  /** Lower-casing twice is lower-casing once. */
  lemma ToLowerIdempotent(s: string)
    ensures ToLower(ToLower(s)) == ToLower(s)
  {
  }

  /** Upper-casing first does not change what lower-casing produces. */
  lemma ToLowerOfToUpper(s: string)
    ensures ToLower(ToUpper(s)) == ToLower(s)
  {
  }

  predicate IsPrefix(p: string, s: string) {
    |p| <= |s| && s[..|p|] == p
  }

  /** `s.includes(sub)`: `sub` occurs somewhere in `s`. */
  predicate Contains(s: string, sub: string)
    decreases |s|
  {
    IsPrefix(sub, s) || (|s| > 0 && Contains(s[1..], sub))
  }

  /** Contains agrees with "sub occurs at some index". */
  lemma {:induction false} ContainsAt(s: string, sub: string, k: nat)
    requires k + |sub| <= |s| && s[k..k + |sub|] == sub
    ensures Contains(s, sub)
  {
    if k > 0 {
      assert s[1..][k - 1..k - 1 + |sub|] == sub;
      ContainsAt(s[1..], sub, k - 1);
    } else {
      assert s[..|sub|] == sub;
    }
  }

  /** If one character of `sub` never occurs in `s`, then `s` does not contain `sub`. */
  lemma {:induction false} MissingCharNotContained(s: string, sub: string, k: nat)
    requires k < |sub| && sub[k] !in s
    ensures !Contains(s, sub)
  {
    if |sub| <= |s| {
      assert s[k] in s;
      assert s[..|sub|][k] != sub[k];
    }
    if |s| > 0 {
      assert forall c :: c in s[1..] ==> c in s;
      MissingCharNotContained(s[1..], sub, k);
    }
  }

  /** A string only contains strings no longer than itself. */
  lemma {:induction false} ContainsLength(s: string, sub: string)
    requires Contains(s, sub)
    ensures |sub| <= |s|
  {
    if !IsPrefix(sub, s) {
      ContainsLength(s[1..], sub);
    }
  }

  /** The empty string occurs in every string. */
  lemma ContainsEmpty(s: string)
    ensures Contains(s, "")
  {
    assert IsPrefix("", s);
  }

  /**
   * `s.split(c)[0]`: the longest prefix of `s` free of `c`. The contract
   * characterises it completely: a prefix, without `c`, and either all of
   * `s` or followed by `c`.
   */
  function BeforeFirst(s: string, c: char): (r: string)
    ensures IsPrefix(r, s)
    ensures c !in r
    ensures |r| == |s| || s[|r|] == c
    decreases |s|
  {
    if s == [] then []
    else if s[0] == c then []
    else [s[0]] + BeforeFirst(s[1..], c)
  }

  /** The text after the first `c`, absent when `s` holds no `c`. */
  function AfterFirst(s: string, c: char): (r: Option<string>)
    ensures r.None? <==> c !in s
    ensures r.Some? ==> s == BeforeFirst(s, c) + [c] + r.value
  {
    var head := BeforeFirst(s, c);
    if |head| == |s| then
      assert head == s;
      None
    else
      assert s == head + [c] + s[|head| + 1..];
      Some(s[|head| + 1..])
  }

  /** Taking the first field again changes nothing. */
  lemma BeforeFirstIdempotent(s: string, c: char)
    ensures BeforeFirst(BeforeFirst(s, c), c) == BeforeFirst(s, c)
  {
    BeforeFirstIdentity(BeforeFirst(s, c), c);
  }

  /** On a string without `c` the first field is the whole string. */
  lemma {:induction false} BeforeFirstIdentity(s: string, c: char)
    requires c !in s
    ensures BeforeFirst(s, c) == s
  {
    var r := BeforeFirst(s, c);
    assert forall i :: 0 <= i < |s| ==> s[i] != c;
    assert s[..|r|] == s;
  }

  /** The first field of `p + [c] + q` is `p` when `p` has no `c`. */
  lemma {:induction false} BeforeFirstOfJoin(p: string, c: char, q: string)
    requires c !in p
    ensures BeforeFirst(p + [c] + q, c) == p
  {
    var s := p + [c] + q;
    var r := BeforeFirst(s, c);
    assert forall i :: 0 <= i < |p| ==> s[i] == p[i] && p[i] != c;
    assert s[|p|] == c;
    assert forall i :: 0 <= i < |r| ==> r[i] == s[i] && r[i] != c;
    assert r == s[..|p|] == p;
  }
}
