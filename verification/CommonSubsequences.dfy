/** Common subsequences and the length of a longest one: the reference the diff is judged by. */
module CommonSubsequences {

  ghost predicate Subsequence<T>(s: seq<T>, t: seq<T>) {
    if s == [] then true
    else if t == [] then false
    else (s[0] == t[0] && Subsequence(s[1..], t[1..])) || Subsequence(s, t[1..])
  }

  ghost predicate Common<T>(s: seq<T>, a: seq<T>, b: seq<T>) {
    Subsequence(s, a) && Subsequence(s, b)
  }

  /** `n` is the length of a longest common subsequence of `a` and `b`. */
  ghost predicate Longest<T(!new)>(n: nat, a: seq<T>, b: seq<T>) {
    && (exists s: seq<T> :: Common(s, a, b) && |s| == n)
    && (forall s: seq<T> :: Common(s, a, b) ==> |s| <= n)
  }

  /** The recurrence that the diff tabulates, on suffixes. */
  ghost function Lcs<T>(a: seq<T>, b: seq<T>): nat
    decreases |a| + |b|
  {
    if a == [] || b == [] then 0
    else if a[0] == b[0] then 1 + Lcs(a[1..], b[1..])
    else Max(Lcs(a[1..], b), Lcs(a, b[1..]))
  }

  function Max(x: nat, y: nat): nat { if x < y then y else x }

  lemma {:induction false} TailIsSubsequence<T>(s: seq<T>, t: seq<T>)
    requires s != [] && Subsequence(s, t)
    ensures t != [] && Subsequence(s[1..], t[1..])
    decreases |t|
  {
    if !(s[0] == t[0] && Subsequence(s[1..], t[1..])) {
      TailIsSubsequence(s, t[1..]);
      if s[1..] != [] { assert Subsequence(s[1..], t[1..]); }
    }
  }

  lemma {:induction false} LcsBoundsCommon<T>(s: seq<T>, a: seq<T>, b: seq<T>)
    requires Common(s, a, b)
    ensures |s| <= Lcs(a, b)
    decreases |a| + |b|
  {
    if s == [] {
    } else if a[0] == b[0] {
      TailIsSubsequence(s, a);
      TailIsSubsequence(s, b);
      LcsBoundsCommon(s[1..], a[1..], b[1..]);
    } else if s[0] == a[0] {
      LcsBoundsCommon(s, a, b[1..]);
    } else {
      LcsBoundsCommon(s, a[1..], b);
    }
  }

  lemma {:induction false} LcsAttained<T>(a: seq<T>, b: seq<T>) returns (s: seq<T>)
    ensures Common(s, a, b) && |s| == Lcs(a, b)
    decreases |a| + |b|
  {
    if a == [] || b == [] {
      s := [];
    } else if a[0] == b[0] {
      var tail := LcsAttained(a[1..], b[1..]);
      s := [a[0]] + tail;
      assert s[1..] == tail;
    } else if Lcs(a[1..], b) < Lcs(a, b[1..]) {
      s := LcsAttained(a, b[1..]);
    } else {
      s := LcsAttained(a[1..], b);
    }
  }

  /** The recurrence computes the length of a longest common subsequence, and nothing else does. */
  lemma LcsIsLongest<T(!new)>(n: nat, a: seq<T>, b: seq<T>)
    ensures Longest(n, a, b) <==> n == Lcs(a, b)
  {
    var s := LcsAttained(a, b);
    forall c: seq<T> | Common(c, a, b) ensures |c| <= Lcs(a, b) { LcsBoundsCommon(c, a, b); }
  }

  lemma {:induction false} LcsAtMostShorter<T>(a: seq<T>, b: seq<T>)
    ensures Lcs(a, b) <= |a| && Lcs(a, b) <= |b|
    decreases |a| + |b|
  {
    if a == [] || b == [] {
    } else if a[0] == b[0] {
      LcsAtMostShorter(a[1..], b[1..]);
    } else {
      LcsAtMostShorter(a[1..], b);
      LcsAtMostShorter(a, b[1..]);
    }
  }
}
