/**
 * sklearn's `train_test_split(..., test_size=0.2, random_state=seed)`, with
 * the seeded shuffle taken as a given permutation of the row positions: the
 * first ceil(0.2 * n) positions of the permutation are the test rows, the
 * rest the training rows.
 */
module Splitting {
  import opened Seqs

  /**
   * The seeded shuffle: given random_state and the number of rows, the order
   * in which sklearn draws the rows.
   */
  type Shuffle = (int, nat) -> seq<nat>

  /** p lists each of the row positions 0 .. n-1 once. */
  predicate IsPermutation(p: seq<nat>, n: nat) {
    && |p| == n
    && (forall i :: 0 <= i < n ==> p[i] < n)
    && Distinct(p)
  }

  /** Number of test rows for test_size = 0.2: the ceiling of n / 5. */
  function TestCount(n: nat): (t: nat)
    ensures n <= 5 * t < n + 5
    ensures t <= n
  {
    (n + 4) / 5
  }

  /** The row positions of the two partitions, in shuffled order. */
  datatype Parts = Parts(train: seq<nat>, test: seq<nat>)

  /** Test rows are the head of the permutation, training rows its tail. */
  function ShuffleSplit(perm: seq<nat>): (r: Parts)
    ensures |r.test| == TestCount(|perm|)
    ensures r.test + r.train == perm
  {
    var t := TestCount(|perm|);
    Parts(perm[t..], perm[..t])
  }

  /**
   * Training and test rows partition the table: every row position is in
   * exactly one of them, nothing else is, neither repeats a row, and the
   * training partition is non-empty exactly when there are at least two rows
   * (sklearn's "train set will be empty" error otherwise).
   */
  lemma ShuffleSplitPartitions(perm: seq<nat>, n: nat)
    requires IsPermutation(perm, n)
    ensures var r := ShuffleSplit(perm);
      && (forall v :: 0 <= v < n ==> (v in r.train <==> v !in r.test))
      && (forall v :: v in r.train || v in r.test ==> v < n)
      && Distinct(r.train) && Distinct(r.test)
      && |r.train| + |r.test| == n
      && (|r.train| > 0 <==> n >= 2)
  {
    CoversBelow(perm, n);
    DistinctCut(perm, TestCount(n));
  }
}
