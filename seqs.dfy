/** Facts about sequences shared by the table, label and split modules. */
module Seqs {

  /** No element occurs twice. */
  predicate Distinct<T(==)>(s: seq<T>) {
    forall i, j :: 0 <= i < j < |s| ==> s[i] != s[j]
  }

  /** The set of elements of s. */
  function Elements<T(==)>(s: seq<T>): set<T> {
    set x | x in s
  }

  /** Position of the first occurrence of x in s. */
  function IndexOf<T(==)>(s: seq<T>, x: T): (k: nat)
    requires x in s
    ensures k < |s| && s[k] == x
    ensures forall j :: 0 <= j < k ==> s[j] != x
  {
    if s[0] == x then 0 else 1 + IndexOf(s[1..], x)
  }

  /** In a sequence without repetitions, the element at k is found at k. */
  lemma IndexOfDistinct<T>(s: seq<T>, k: nat)
    requires Distinct(s) && k < |s|
    ensures IndexOf(s, s[k]) == k
  {
  }

  /** Appending at the end does not move the first occurrence of an element already there. */
  lemma IndexOfPrefix<T>(s: seq<T>, p: seq<T>, x: T)
    requires p <= s && x in p
    ensures x in s && IndexOf(s, x) == IndexOf(p, x)
  {
    var k := IndexOf(p, x);
    assert s[k] == x;
  }

  /** Cutting a sequence without repetitions gives two such pieces with no element in common. */
  lemma DistinctCut<T>(s: seq<T>, t: nat)
    requires Distinct(s) && t <= |s|
    ensures Distinct(s[..t]) && Distinct(s[t..])
    ensures forall x :: x in s[t..] ==> x !in s[..t]
    ensures forall x :: x in s <==> x in s[..t] || x in s[t..]
  {
    var head, tail := s[..t], s[t..];
    assert s == head + tail;
    forall x | x in tail ensures x !in head {
      var j :| 0 <= j < |tail| && tail[j] == x;
      forall i | 0 <= i < t ensures head[i] != x {
        assert head[i] == s[i] && x == s[t + j];
      }
    }
    forall i, j | 0 <= i < j < |tail| ensures tail[i] != tail[j] {
      assert tail[i] == s[t + i] && tail[j] == s[t + j];
    }
  }

  /** Appending x keeps a sequence free of repetitions exactly when x is new. */
  lemma DistinctAppend<T>(s: seq<T>, x: T)
    ensures Distinct(s + [x]) <==> Distinct(s) && x !in s
  {
    var a := s + [x];
    if Distinct(a) {
      forall i, j | 0 <= i < j < |s| ensures s[i] != s[j] {
        assert s[i] == a[i] && s[j] == a[j];
      }
      forall k | 0 <= k < |s| ensures s[k] != x {
        assert a[k] == s[k] && a[|s|] == x;
      }
    }
  }

  /** A sequence without repetitions has as many elements as it has positions. */
  lemma {:induction false} DistinctCard<T>(s: seq<T>)
    requires Distinct(s)
    ensures |Elements(s)| == |s|
  {
    if |s| > 0 {
      var t := s[1..];
      assert Distinct(t) by {
        forall i, j | 0 <= i < j < |t| ensures t[i] != t[j] {
          assert t[i] == s[i + 1] && t[j] == s[j + 1];
        }
      }
      DistinctCard(t);
      assert Elements(s) == {s[0]} + Elements(t);
      assert s[0] !in Elements(t) by {
        forall j | 0 <= j < |t| ensures t[j] != s[0] {
          assert t[j] == s[j + 1];
        }
      }
    }
  }

  /** The naturals below n; there are n of them. */
  function Below(n: nat): (b: set<nat>)
    ensures |b| == n
    ensures forall i: nat :: i in b <==> i < n
  {
    if n == 0 then {}
    else
      var smaller := Below(n - 1);
      assert n - 1 !in smaller;
      smaller + {n - 1}
  }

  /** A subset has at most as many elements as its superset. */
  lemma {:induction false} SubsetCard<T>(a: set<T>, b: set<T>)
    requires a <= b
    ensures |a| <= |b|
    decreases b
  {
    if b != {} {
      var x :| x in b;
      SubsetCard(a - {x}, b - {x});
    }
  }

  /** A sequence of n distinct naturals below n holds every natural below n. */
  lemma CoversBelow(p: seq<nat>, n: nat)
    requires |p| == n && Distinct(p)
    requires forall i :: 0 <= i < n ==> p[i] < n
    ensures forall v :: 0 <= v < n ==> v in p
  {
    DistinctCard(p);
    var e := Elements(p);
    forall v | 0 <= v < n ensures v in p {
      if v !in p {
        SubsetCard(e, Below(n) - {v});
        assert false;
      }
    }
  }
}
