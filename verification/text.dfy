/** The few string operations the core relies on, with JavaScript's meaning. */
module Text {

  /** `s.startsWith(prefix)`. */
  predicate StartsWith(s: string, prefix: string) {
    |prefix| <= |s| && s[..|prefix|] == prefix
  }

  /** Prefixes compose: a path that starts with a longer prefix starts with every prefix of it. */
  lemma StartsWithTransitive(s: string, p: string, q: string)
    requires StartsWith(s, p) && StartsWith(p, q)
    ensures StartsWith(s, q)
  {
    assert s[..|q|] == s[..|p|][..|q|];
  }

  /** A prefix of `p` is a prefix of everything `p` starts. */
  lemma StartsWithConcat(p: string, q: string, r: string)
    requires StartsWith(p, r)
    ensures StartsWith(p + q, r)
  {
    assert (p + q)[..|r|] == p[..|r|];
  }

  /** Two prefixes that differ at a position both cover cannot both start the same string. */
  lemma StartsWithExclusive(s: string, p: string, q: string, i: nat)
    requires i < |p| && i < |q| && p[i] != q[i]
    requires StartsWith(s, p)
    ensures !StartsWith(s, q)
  {
    assert s[i] == p[i];
  }

  /** `s.replace(from, to)` for single-character strings: only the FIRST occurrence is replaced. */
  function ReplaceFirst(s: string, from: char, to: char): (r: string)
    ensures |r| == |s|
    ensures forall i :: 0 <= i < |s| && s[i] != from ==> r[i] == s[i]
    ensures from !in s ==> r == s
  {
    if |s| == 0 then s
    else if s[0] == from then [to] + s[1..]
    else [s[0]] + ReplaceFirst(s[1..], from, to)
  }

  /** Number of occurrences of a character. */
  function Count(s: string, c: char): nat {
    if |s| == 0 then 0 else (if s[0] == c then 1 else 0) + Count(s[1..], c)
  }

  lemma {:induction false} CountZero(s: string, c: char)
    ensures Count(s, c) == 0 <==> c !in s
  {
    if |s| > 0 {
      CountZero(s[1..], c);
      assert s == [s[0]] + s[1..];
    }
  }

  /** Replacing a present character by a different one removes exactly one occurrence of it. */
  lemma {:induction false} ReplaceFirstRemovesOne(s: string, from: char, to: char)
    requires from != to && from in s
    ensures Count(ReplaceFirst(s, from, to), from) == Count(s, from) - 1
    ensures Count(ReplaceFirst(s, from, to), to) == Count(s, to) + 1
  {
    var r := ReplaceFirst(s, from, to);
    if s[0] == from {
      assert r[1..] == s[1..];
    } else {
      assert from in s[1..] by {
        var k :| 0 <= k < |s| && s[k] == from;
        assert s[1..][k - 1] == from;
      }
      ReplaceFirstRemovesOne(s[1..], from, to);
      assert r[1..] == ReplaceFirst(s[1..], from, to);
    }
  }

  /** Everything before the first occurrence is kept, the occurrence is replaced, and
      everything after it is kept. */
  lemma {:induction false} ReplaceFirstConcat(p: string, q: string, from: char, to: char)
    requires from !in p
    ensures ReplaceFirst(p + [from] + q, from, to) == p + [to] + q
  {
    var s := p + [from] + q;
    if |p| == 0 {
      assert s == [from] + q;
    } else {
      assert p == [p[0]] + p[1..];
      assert s[0] == p[0] && s[1..] == p[1..] + [from] + q;
      ReplaceFirstConcat(p[1..], q, from, to);
      assert p + [to] + q == [p[0]] + (p[1..] + [to] + q);
    }
  }

  /** The same, for the index of the first occurrence. */
  lemma ReplaceFirstAt(s: string, from: char, to: char, k: nat)
    requires k < |s| && s[k] == from && from !in s[..k]
    ensures ReplaceFirst(s, from, to) == s[..k] + [to] + s[k + 1..]
  {
    assert s == s[..k] + [from] + s[k + 1..];
    ReplaceFirstConcat(s[..k], s[k + 1..], from, to);
  }

  /** `xs.indexOf(x)`: the first index holding `x`, or -1. */
  function IndexOf(xs: seq<string>, x: string): (r: int)
    ensures -1 <= r < |xs|
    ensures r == -1 <==> x !in xs
    ensures r >= 0 ==> r < |xs| && xs[r] == x && x !in xs[..r]
  {
    if |xs| == 0 then -1
    else if xs[0] == x then 0
    else
      var k := IndexOf(xs[1..], x);
      if k == -1 then -1 else k + 1
  }
}
