/**
 * Binary label encoding of the target column: the distinct values in order
 * of first appearance (pandas' `Series.unique()`), the two-entry label map and
 * the per-row 0/1 labels (`Series.map`).
 */
module Labels {
  import opened Seqs

  /** The distinct values of s, each at the position where it first appears. */
  function Unique<T(==)>(s: seq<T>): (u: seq<T>)
    ensures Distinct(u)
    ensures forall j :: 0 <= j < |u| ==> u[j] in s
    ensures forall i :: 0 <= i < |s| ==> s[i] in u
    ensures |u| <= |s|
    ensures |s| > 0 ==> |u| > 0 && u[0] == s[0]
  {
    if |s| == 0 then []
    else
      var u := Unique(s[..|s| - 1]);
      var last := s[|s| - 1];
      if last in u then u else u + [last]
  }

  /** The count reported by the two-class check is the number of distinct values. */
  lemma UniqueCount<T>(s: seq<T>)
    ensures |Unique(s)| == |Elements(s)|
  {
    DistinctCard(Unique(s));
    assert Elements(Unique(s)) == Elements(s);
  }

  /** Unique lists values in the order in which they first occur in s. */
  lemma {:induction false} UniqueFirstSeen<T>(s: seq<T>, j: nat, k: nat)
    requires j < k < |Unique(s)|
    ensures IndexOf(s, Unique(s)[j]) < IndexOf(s, Unique(s)[k])
  {
    var p := s[..|s| - 1];
    var u := Unique(p);
    var last := s[|s| - 1];
    assert p <= s;
    if last in u {
      UniqueFirstSeen(p, j, k);
      IndexOfPrefix(s, p, u[j]);
      IndexOfPrefix(s, p, u[k]);
    } else if k < |u| {
      UniqueFirstSeen(p, j, k);
      IndexOfPrefix(s, p, u[j]);
      IndexOfPrefix(s, p, u[k]);
    } else {
      IndexOfPrefix(s, p, u[j]);
      assert Unique(s)[k] == last;
    }
  }

  /** `{unique_values[0]: 0, unique_values[1]: 1}`. */
  function LabelMap<T(==)>(classes: seq<T>): (m: map<T, int>)
    requires |classes| == 2
  {
    map[classes[0] := 0, classes[1] := 1]
  }

  /** `column.map(m)`: each value replaced by its label. */
  function Encode<T(==)>(s: seq<T>, m: map<T, int>): (labels: seq<int>)
    requires forall i :: 0 <= i < |s| ==> s[i] in m
    ensures |labels| == |s|
    ensures forall i :: 0 <= i < |s| ==> labels[i] == m[s[i]]
  {
    seq(|s|, i requires 0 <= i < |s| => m[s[i]])
  }

  /**
   * With exactly two distinct target values, the label map has exactly two
   * keys, both of them target values, every target value is a key, the value
   * of the first row maps to 0 and any other value maps to 1.
   */
  lemma BinaryEncoding<T>(s: seq<T>)
    requires |Unique(s)| == 2
    ensures var m := LabelMap(Unique(s));
      && |m| == 2
      && (forall x :: x in m ==> x in s)
      && (forall i :: 0 <= i < |s| ==> s[i] in m)
      && m[s[0]] == 0
      && (forall i :: 0 <= i < |s| && s[i] != s[0] ==> m[s[i]] == 1)
  {
    TwoClassMap(s, Unique(s));
  }

  /**
   * BinaryEncoding for any two-element list u with the properties Unique(s)
   * guarantees. It is kept apart so that the proof sees only those
   * properties and not the recursive definition of Unique.
   */
  lemma TwoClassMap<T>(s: seq<T>, u: seq<T>)
    requires |u| == 2 && u[0] != u[1] && |s| > 0 && u[0] == s[0]
    requires u[0] in s && u[1] in s
    requires forall i :: 0 <= i < |s| ==> s[i] in u
    ensures var m := LabelMap(u);
      && |m| == 2
      && (forall x :: x in m ==> x in s)
      && (forall i :: 0 <= i < |s| ==> s[i] in m)
      && m[s[0]] == 0
      && (forall i :: 0 <= i < |s| && s[i] != s[0] ==> m[s[i]] == 1)
  {
    var m := LabelMap(u);
    assert m.Keys == {u[0], u[1]};
    forall i | 0 <= i < |s| ensures s[i] == u[0] || s[i] == u[1] {
      assert s[i] in u;
    }
  }

  /** Each encoded label is 0 or 1, and 0 exactly for the rows carrying the first row's value. */
  lemma EncodedLabels<T>(s: seq<T>)
    requires |Unique(s)| == 2
    ensures forall i :: 0 <= i < |s| ==> s[i] in LabelMap(Unique(s))
    ensures var labels := Encode(s, LabelMap(Unique(s)));
      forall i :: 0 <= i < |s| ==>
        && (labels[i] == 0 || labels[i] == 1)
        && (labels[i] == 0 <==> s[i] == s[0])
  {
    BinaryEncoding(s);
  }
}
