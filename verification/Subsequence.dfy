/** Order-preserving subsequences. */
module Subsequence {
  /** f tells, for each element of a, where in b it comes from. */
  ghost predicate Embeds<T>(f: seq<int>, a: seq<T>, b: seq<T>) {
    && |f| == |a|
    && (forall i :: 0 <= i < |f| ==> 0 <= f[i] < |b| && b[f[i]] == a[i])
    && (forall i, j :: 0 <= i < j < |f| ==> f[i] < f[j])
  }

  /** a is b with some elements left out. */
  ghost predicate IsSubseq<T>(a: seq<T>, b: seq<T>) {
    exists f :: Embeds(f, a, b)
  }

  /** A subsequence is no longer than the whole, and is the whole if it is as long. */
  lemma NoLonger<T>(a: seq<T>, b: seq<T>)
    requires IsSubseq(a, b)
    ensures |a| <= |b|
    ensures |a| == |b| ==> a == b
  {
    var f :| Embeds(f, a, b);
    if a != [] {
      Spread(f, 0, |f| - 1);
    }
    if |a| == |b| {
      forall i | 0 <= i < |a|
        ensures a[i] == b[i]
      {
        Spread(f, 0, i);
        Spread(f, i, |f| - 1);
      }
    }
  }

  lemma {:induction false} Spread(f: seq<int>, i: int, j: int)
    requires 0 <= i <= j < |f|
    requires forall i, j :: 0 <= i < j < |f| ==> f[i] < f[j]
    ensures f[j] - f[i] >= j - i
    decreases j - i
  {
    if i < j {
      Spread(f, i, j - 1);
    }
  }

  lemma Empty<T>()
    ensures IsSubseq<T>([], [])
  {
    assert Embeds<T>([], [], []);
  }

  lemma ExtendBoth<T>(a: seq<T>, b: seq<T>, x: seq<T>)
    requires IsSubseq(a, b)
    ensures IsSubseq(a + x, b + x)
  {
    var f :| Embeds(f, a, b);
    var g := f + seq(|x|, i => |b| + i);
    assert Embeds(g, a + x, b + x);
  }

  /** Elements may be left out from anywhere. */
  lemma LeaveOut<T>(u: seq<T>, x: seq<T>, v: seq<T>, b: seq<T>)
    requires IsSubseq(u + x + v, b)
    ensures IsSubseq(u + v, b)
  {
    var f :| Embeds(f, u + x + v, b);
    var g := f[..|u|] + f[|u| + |x|..];
    forall i | 0 <= i < |g|
      ensures 0 <= g[i] < |b| && b[g[i]] == (u + v)[i]
    {
      var j := if i < |u| then i else i + |x|;
      assert g[i] == f[j] && (u + x + v)[j] == (u + v)[i];
    }
    assert Embeds(g, u + v, b);
  }
}
