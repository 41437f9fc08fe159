/**
  Storage optimisation of a histogram's centroids. The parallel lists of means and counts are
  rewritten through a T-Digest when there are too many centroids for the accuracy budget, when
  some count is below 1, or when the means are not strictly ascending; otherwise they are left
  exactly as they are.

  The digest is a collaborator whose internals are not modelled: a `Digest` object records the
  (mean, count) pairs it is given, and `compress` stands for compressing it and listing its
  centroids, a function of the accuracy and of the pairs added, in order.
*/
module CentroidNormalizer {
  import opened HistogramTypes

  /** Compressing a digest of a given accuracy fed with the given pairs, and reading back its
      centroids. */
  type Compressor = (int, seq<Centroid>) -> seq<Centroid>

  /** What the model assumes of the digest: an empty digest has no centroids, and the
      centroids of any digest are strictly ascending by mean with counts of at least 1. */
  ghost predicate DigestSound(compress: Compressor, accuracy: int) {
    && compress(accuracy, []) == []
    && forall input: seq<Centroid> :: Canonical(compress(accuracy, input))
  }

  /** A fresh digest of the given accuracy and the pairs added to it so far. */
  class Digest {
    const accuracy: int
    var added: seq<Centroid>

    constructor (accuracy: int)
      ensures this.accuracy == accuracy && added == []
    {
      this.accuracy := accuracy;
      added := [];
    }

    method Add(mean: real, count: int)
      modifies this
      ensures added == old(added) + [Centroid(mean, count)]
    {
      added := added + [Centroid(mean, count)];
    }

    /** The centroids after compression. */
    function Centroids(compress: Compressor): seq<Centroid>
      reads this
    {
      compress(accuracy, added)
    }
  }

  function Min(a: int, b: int): int {
    if a <= b then a else b
  }

  /** The pairs among the first `n` indices whose count is positive, in index order. */
  function FedPrefix(means: seq<real>, counts: seq<int>, n: nat): seq<Centroid>
    requires n <= |means| && n <= |counts|
  {
    if n == 0 then []
    else FedPrefix(means, counts, n - 1) +
         (if counts[n - 1] > 0 then [Centroid(means[n - 1], counts[n - 1])] else [])
  }

  /** The pairs a rewrite feeds the digest: those of positive count, up to the shorter list. */
  function Fed(means: seq<real>, counts: seq<int>): seq<Centroid> {
    FedPrefix(means, counts, Min(|means|, |counts|))
  }

  /** The indices below `n` whose count is positive, in increasing order. */
  function PositiveIndices(counts: seq<int>, n: nat): seq<nat>
    requires n <= |counts|
  {
    if n == 0 then []
    else PositiveIndices(counts, n - 1) + (if counts[n - 1] > 0 then [n - 1] else [])
  }

  /** PositiveIndices lists exactly the indices of positive count below `n`, each once, in
      strictly increasing order. */
  lemma {:induction false} PositiveIndicesExactly(counts: seq<int>, n: nat)
    requires n <= |counts|
    ensures var idx := PositiveIndices(counts, n);
      && (forall k :: 0 <= k < |idx| ==> idx[k] < n && counts[idx[k]] > 0)
      && (forall k, l :: 0 <= k < l < |idx| ==> idx[k] < idx[l])
      && (forall i :: 0 <= i < n && counts[i] > 0 ==> i in idx)
  {
    if n > 0 {
      PositiveIndicesExactly(counts, n - 1);
    }
  }

  /** The k-th pair fed to the digest is the pair at the k-th index of positive count: the
      feed keeps exactly those pairs, in index order, unchanged. */
  lemma {:induction false} FedAtPositiveIndices(means: seq<real>, counts: seq<int>, n: nat)
    requires n <= |means| && n <= |counts|
    ensures var idx := PositiveIndices(counts, n);
      && |FedPrefix(means, counts, n)| == |idx|
      && forall k :: 0 <= k < |idx| ==>
           idx[k] < n && FedPrefix(means, counts, n)[k] == Centroid(means[idx[k]], counts[idx[k]])
  {
    if n > 0 {
      FedAtPositiveIndices(means, counts, n - 1);
      PositiveIndicesExactly(counts, n - 1);
    }
  }

  /** Every pair fed to the digest has a positive count. */
  lemma {:induction false} FedCountsPositive(means: seq<real>, counts: seq<int>, n: nat)
    requires n <= |means| && n <= |counts|
    ensures forall c :: c in FedPrefix(means, counts, n) ==> c.count > 0
  {
    if n > 0 {
      FedCountsPositive(means, counts, n - 1);
    }
  }

  /** Sum of the counts of a centroid sequence. */
  function Weight(cs: seq<Centroid>): int {
    if cs == [] then 0 else Weight(cs[..|cs| - 1]) + cs[|cs| - 1].count
  }

  /** Sum of the positive counts among the first `n`. */
  function PositiveWeight(counts: seq<int>, n: nat): int
    requires n <= |counts|
  {
    if n == 0 then 0
    else PositiveWeight(counts, n - 1) + (if counts[n - 1] > 0 then counts[n - 1] else 0)
  }

  /** The digest is handed exactly the weight of the valid (positive-count) pairs. */
  lemma {:induction false} FedWeight(means: seq<real>, counts: seq<int>, n: nat)
    requires n <= |means| && n <= |counts|
    ensures Weight(FedPrefix(means, counts, n)) == PositiveWeight(counts, n)
  {
    if n > 0 {
      FedWeight(means, counts, n - 1);
      var prefix := FedPrefix(means, counts, n - 1);
      if counts[n - 1] > 0 {
        var cs := prefix + [Centroid(means[n - 1], counts[n - 1])];
        assert cs[..|cs| - 1] == prefix;
      } else {
        assert FedPrefix(means, counts, n) == prefix + [] == prefix;
      }
    }
  }

  /** The lists after a rewrite: the digest's centroids, and nothing of the old content. */
  function Rewritten(means: seq<real>, counts: seq<int>, accuracy: int, compress: Compressor)
    : (seq<real>, seq<int>)
  {
    var cs := compress(accuracy, Fed(means, counts));
    (MeansOf(cs), CountsOf(cs))
  }

  /** Under the digest contract a rewrite leaves lists of equal length, strictly ascending
      means and counts of at least 1. */
  lemma RewrittenIsCanonical(means: seq<real>, counts: seq<int>, accuracy: int,
                             compress: Compressor)
    requires DigestSound(compress, accuracy)
    ensures var (m, c) := Rewritten(means, counts, accuracy, compress);
      |m| == |c| && StrictlyAscending(m) && !HasBogusCount(c)
  {
    assert Canonical(compress(accuracy, Fed(means, counts)));
  }

  /** Feeds the pairs of positive count to a fresh digest, in index order up to the shorter
      list, then replaces both lists wholesale with the digest's centroids. */
  method Rewrite(h: Histogram, storageAccuracy: int, compress: Compressor)
    modifies h`bins, h`counts
    ensures (h.bins, h.counts) == Rewritten(old(h.bins), old(h.counts), storageAccuracy, compress)
  {
    var temp := new Digest(storageAccuracy);
    var size := Min(|h.bins|, |h.counts|);
    for i := 0 to size
      invariant h.bins == old(h.bins) && h.counts == old(h.counts)
      invariant temp.added == FedPrefix(h.bins, h.counts, i)
    {
      var count := h.counts[i];
      if count > 0 {
        temp.Add(h.bins[i], count);
      }
    }
    var centroids := temp.Centroids(compress);

    h.bins := [];
    h.counts := [];
    for j := 0 to |centroids|
      invariant h.bins == MeansOf(centroids[..j])
      invariant h.counts == CountsOf(centroids[..j])
    {
      h.bins := h.bins + [centroids[j].mean];
      h.counts := h.counts + [centroids[j].count];
    }
    assert centroids[..|centroids|] == centroids;
  }

  /** The length of the strictly ascending run at the start of `means`, scanning from index 1:
      it stops at the first `n` with `means[n - 1] >= means[n]`, and is 1 for an empty list. */
  method StrictlyIncreasingLength(means: seq<real>) returns (n: nat)
    ensures 1 <= n && (n <= |means| || |means| == 0)
    ensures |means| == 0 ==> n == 1
    ensures forall i :: 0 < i < n && i < |means| ==> means[i - 1] < means[i]
    ensures n < |means| ==> means[n - 1] >= means[n]
    ensures n == |means| <==> |means| > 0 && StrictlyAscending(means)
  {
    n := 1;
    while n < |means|
      invariant 1 <= n && (n <= |means| || |means| == 0)
      invariant |means| == 0 ==> n == 1
      invariant forall i :: 0 < i < n && i < |means| ==> means[i - 1] < means[i]
    {
      if means[n - 1] >= means[n] {
        break;
      }
      n := n + 1;
    }
  }

  /** More centroids than `ratio` times the accuracy. */
  predicate Oversize(size: int, accuracy: int, ratio: real) {
    size as real > ratio * accuracy as real
  }

  /** The lists after storage optimisation, step by step as the decoder performs them: an
      oversize rewrite first, then the count and order checks on the lists as they now are. */
  function Optimized(means: seq<real>, counts: seq<int>, size: int, accuracy: int, ratio: real,
                     compress: Compressor): (seq<real>, seq<int>)
  {
    if |means| == 0 || |counts| == 0 then (means, counts)
    else
      var (m, c) := if Oversize(size, accuracy, ratio)
                    then Rewritten(means, counts, accuracy, compress)
                    else (means, counts);
      if HasBogusCount(c) || |m| == 0 || !StrictlyAscending(m)
      then Rewritten(m, c, accuracy, compress)
      else (m, c)
  }

  /** Rewrites the lists of `h` in place when storage calls for it. */
  method OptimizeForStorage(h: Histogram, size: int, storageAccuracy: int, ratio: real,
                            compress: Compressor)
    modifies h`bins, h`counts
    ensures (h.bins, h.counts) ==
            Optimized(old(h.bins), old(h.counts), size, storageAccuracy, ratio, compress)
  {
    if |h.bins| == 0 || |h.counts| == 0 {
      return;
    }
    if Oversize(size, storageAccuracy, ratio) { // too many centroids
      Rewrite(h, storageAccuracy, compress);
    }
    if HasBogusCount(h.counts) {
      Rewrite(h, storageAccuracy, compress);
    } else {
      var strictlyIncreasingLength := StrictlyIncreasingLength(h.bins);
      if strictlyIncreasingLength != |h.bins| { // not ordered
        Rewrite(h, storageAccuracy, compress);
      }
    }
  }

  /** The declared rewrite policy: too many centroids, a count below 1, or means not strictly
      ascending. */
  predicate RewriteTriggered(means: seq<real>, counts: seq<int>, size: int, accuracy: int,
                             ratio: real)
  {
    Oversize(size, accuracy, ratio) || HasBogusCount(counts) || !StrictlyAscending(means)
  }

  /** Empty lists, and lists already in storage form within the budget, are left exactly as
      they are, whatever the digest does. */
  lemma OptimizeLeavesCanonicalAlone(means: seq<real>, counts: seq<int>, size: int,
                                     accuracy: int, ratio: real, compress: Compressor)
    requires |means| == 0 || |counts| == 0 || !RewriteTriggered(means, counts, size, accuracy, ratio)
    ensures Optimized(means, counts, size, accuracy, ratio, compress) == (means, counts)
  {
  }

  /** Within the budget, whatever the digest does, exactly one rewrite happens when a count is
      below 1 or the means are out of order, and none otherwise. */
  lemma OptimizeWithinBudget(means: seq<real>, counts: seq<int>, size: int, accuracy: int,
                             ratio: real, compress: Compressor)
    requires |means| > 0 && |counts| > 0 && !Oversize(size, accuracy, ratio)
    ensures Optimized(means, counts, size, accuracy, ratio, compress) ==
            if HasBogusCount(counts) || !StrictlyAscending(means)
            then Rewritten(means, counts, accuracy, compress)
            else (means, counts)
  {
  }

  /** Under the digest contract the sequential checks amount to the declared policy: the lists
      are rewritten once, from the original content, exactly when the policy triggers; the
      checks that follow an oversize rewrite never rewrite again. */
  lemma OptimizePolicy(means: seq<real>, counts: seq<int>, size: int, accuracy: int,
                       ratio: real, compress: Compressor)
    requires DigestSound(compress, accuracy)
    requires |means| > 0 && |counts| > 0
    ensures Optimized(means, counts, size, accuracy, ratio, compress) ==
            if RewriteTriggered(means, counts, size, accuracy, ratio)
            then Rewritten(means, counts, accuracy, compress)
            else (means, counts)
  {
    if Oversize(size, accuracy, ratio) {
      var (m, c) := Rewritten(means, counts, accuracy, compress);
      RewrittenIsCanonical(means, counts, accuracy, compress);
      if |m| == 0 {
        assert Fed(m, c) == [];
        assert Rewritten(m, c, accuracy, compress) == (m, c);
      }
    }
  }

  /** Under the digest contract, optimised non-empty lists have strictly ascending means and
      counts of at least 1, whether or not they were rewritten. */
  lemma OptimizedIsOrdered(means: seq<real>, counts: seq<int>, size: int, accuracy: int,
                           ratio: real, compress: Compressor)
    requires DigestSound(compress, accuracy)
    requires |means| > 0 && |counts| > 0
    ensures var (m, c) := Optimized(means, counts, size, accuracy, ratio, compress);
      StrictlyAscending(m) && !HasBogusCount(c)
  {
    OptimizePolicy(means, counts, size, accuracy, ratio, compress);
    if RewriteTriggered(means, counts, size, accuracy, ratio) {
      RewrittenIsCanonical(means, counts, accuracy, compress);
    }
  }
}
