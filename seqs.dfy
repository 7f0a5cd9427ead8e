/** Generic facts about sequences shared by the projections and result lists. */
module Seqs {

  /** `xs` can be obtained from `ys` by deleting elements (order kept),
      decided by matching each element of `xs` at its leftmost place. */
  predicate Subsequence<T(==)>(xs: seq<T>, ys: seq<T>)
    decreases |ys|
  {
    if xs == [] then true
    else if ys == [] then false
    else if xs[0] == ys[0] then Subsequence(xs[1..], ys[1..])
    else Subsequence(xs, ys[1..])
  }

  /** `f` places each element of `xs` at a position of `ys` holding it, at
      strictly increasing positions. */
  ghost predicate IsEmbedding<T>(f: seq<nat>, xs: seq<T>, ys: seq<T>) {
    |f| == |xs|
    && (forall j :: 0 <= j < |f| ==> f[j] < |ys| && ys[f[j]] == xs[j])
    && (forall j, k :: 0 <= j < k < |f| ==> f[j] < f[k])
  }

  /** The elements of `xs` occur in `ys` in the same order, not necessarily
      next to each other. */
  ghost predicate Embeds<T>(xs: seq<T>, ys: seq<T>) {
    exists f: seq<nat> :: IsEmbedding(f, xs, ys)
  }

  function Up(f: seq<nat>): (g: seq<nat>)
    ensures |g| == |f| && forall j :: 0 <= j < |f| ==> g[j] == f[j] + 1
  {
    seq(|f|, j requires 0 <= j < |f| => f[j] + 1)
  }

  function Down(f: seq<nat>): (g: seq<nat>)
    requires forall j :: 0 <= j < |f| ==> f[j] >= 1
    ensures |g| == |f| && forall j :: 0 <= j < |f| ==> g[j] == f[j] - 1
  {
    seq(|f|, j requires 0 <= j < |f| => f[j] - 1)
  }

  /** The leftmost matching finds an order-preserving placement whenever it succeeds. */
  lemma {:induction false} SubsequenceEmbeds<T>(xs: seq<T>, ys: seq<T>)
    requires Subsequence(xs, ys)
    ensures Embeds(xs, ys)
    decreases |ys|
  {
    if xs == [] {
      assert IsEmbedding([], xs, ys);
    } else if xs[0] == ys[0] {
      SubsequenceEmbeds(xs[1..], ys[1..]);
      var g :| IsEmbedding(g, xs[1..], ys[1..]);
      var f := [0] + Up(g);
      forall j | 0 <= j < |f| ensures f[j] < |ys| && ys[f[j]] == xs[j] {
        if j > 0 {
          assert ys[f[j]] == ys[1..][g[j - 1]];
        }
      }
      assert IsEmbedding(f, xs, ys);
    } else {
      SubsequenceEmbeds(xs, ys[1..]);
      var g :| IsEmbedding(g, xs, ys[1..]);
      var f := Up(g);
      forall j | 0 <= j < |f| ensures f[j] < |ys| && ys[f[j]] == xs[j] {
        assert ys[f[j]] == ys[1..][g[j]];
      }
      assert IsEmbedding(f, xs, ys);
    }
  }

  /** Dropping the first placement leaves a placement of the rest of `xs`
      in the rest of `ys`. */
  lemma TailEmbedding<T>(f: seq<nat>, xs: seq<T>, ys: seq<T>)
    requires IsEmbedding(f, xs, ys) && xs != []
    ensures ys != []
    ensures forall j :: 1 <= j < |f| ==> f[j] >= 1
    ensures IsEmbedding(Down(f[1..]), xs[1..], ys[1..])
  {
    assert f[0] < |ys|;
    assert forall j :: 1 <= j < |f| ==> f[0] < f[j];
    var g := Down(f[1..]);
    forall j | 0 <= j < |g| ensures g[j] < |ys[1..]| && ys[1..][g[j]] == xs[1..][j] {
      assert g[j] == f[j + 1] - 1;
    }
  }

  /** A placement that avoids the first position of `ys` is one in the rest of `ys`. */
  lemma SkipEmbedding<T>(f: seq<nat>, xs: seq<T>, ys: seq<T>)
    requires IsEmbedding(f, xs, ys) && ys != [] && forall j :: 0 <= j < |f| ==> f[j] >= 1
    ensures IsEmbedding(Down(f), xs, ys[1..])
  {
    var h := Down(f);
    forall j | 0 <= j < |h| ensures h[j] < |ys[1..]| && ys[1..][h[j]] == xs[j] {
      assert h[j] == f[j] - 1;
    }
  }

  /** Any order-preserving placement means the leftmost matching succeeds. */
  lemma {:induction false} EmbedsSubsequence<T>(xs: seq<T>, ys: seq<T>, f: seq<nat>)
    requires IsEmbedding(f, xs, ys)
    ensures Subsequence(xs, ys)
    decreases |ys|
  {
    if xs != [] {
      TailEmbedding(f, xs, ys);
      EmbedsSubsequence(xs[1..], ys[1..], Down(f[1..]));
      if xs[0] != ys[0] {
        assert f[0] != 0;
        SkipEmbedding(f, xs, ys);
        EmbedsSubsequence(xs, ys[1..], Down(f));
      }
    }
  }

  /** The leftmost matching decides exactly the order-preserving occurrence. */
  lemma SubsequenceIffEmbeds<T>(xs: seq<T>, ys: seq<T>)
    ensures Subsequence(xs, ys) <==> Embeds(xs, ys)
  {
    if Subsequence(xs, ys) {
      SubsequenceEmbeds(xs, ys);
    }
    if Embeds(xs, ys) {
      var f :| IsEmbedding(f, xs, ys);
      EmbedsSubsequence(xs, ys, f);
    }
  }
}
