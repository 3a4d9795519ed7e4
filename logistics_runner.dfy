/**
 * The experiment pipeline of `LogisticsRunner`: schema inference, cleaning,
 * normalisation, binary label encoding, the train/test split, and the
 * orchestration that feeds per-feature columns to a Keras classifier.
 */
module LogisticsRunner {
  import opened Wrappers
  import opened Seqs
  import opened Tables
  import opened Labels
  import opened Splitting
  import opened Classifier

  /** Default `random_state` of the constructor. */
  const DefaultRandomState: int := 100

  /** Settings fixed in `run_experiment`. */
  const LearningRate: real := 0.001
  const Training: FitConfig := FitConfig(100, 60, 0.2)

  /** The errors a run raises; none of them leaves a built model behind. */
  datatype RunError =
    | NoColumns                                  // `data.columns[-1]` on a table without columns
    | MissingValues                              // a retained cell is null
    | TargetClassCount(column: string, count: nat) // the target does not have exactly two values
    | ModelRejected(cause: BuildError)           // Keras refuses the network of `create_model`
    | ValidationSplitTooSmall(samples: nat)      // `fit` cannot hold out a validation share

  /** The fixed parts of the class-count message, around the column name and the count. */
  const ClassCountLead: string := "The target column '"
  const ClassCountMiddle: string := "' must have exactly two unique classes for logistic regression, but it has "

  /** The text of the raised exception. */
  function Message(e: RunError): string {
    match e
    case NoColumns => "index -1 is out of bounds for axis 0 with size 0"
    case MissingValues => "Dataset contains missing values. Please clean the data before uploading."
    case TargetClassCount(c, n) => ClassCountLead + c + ClassCountMiddle + NatToString(n) + "."
    case ModelRejected(NoInputs) => "A `Concatenate` layer should be called on a list of at least 1 input."
    case ModelRejected(DuplicateLayerName(name)) =>
      "The name \"" + name + "\" is used 2 times in the model. All layer names should be unique."
    case ValidationSplitTooSmall(n) =>
      "Training data contains " + NatToString(n) + " samples, which is not sufficient to split it into a "
      + "validation and training set as specified by `validation_split=0.2`. Either provide more data, "
      + "or a different value for the `validation_split` argument."
  }

  /** The number a string of decimal digits denotes. */
  function DigitsValue(s: string): nat
    requires forall i :: 0 <= i < |s| ==> '0' <= s[i] <= '9'
  {
    if |s| == 0 then 0 else 10 * DigitsValue(s[..|s| - 1]) + (s[|s| - 1] as int - '0' as int)
  }

  /** Decimal digits of n, as an f-string prints it: they denote n, with no leading zero. */
  function NatToString(n: nat): (s: string)
    ensures |s| > 0
    ensures forall i :: 0 <= i < |s| ==> '0' <= s[i] <= '9'
    ensures DigitsValue(s) == n
    ensures n >= 10 ==> s[0] != '0'
  {
    var d := [('0' as int + n % 10) as char];
    if n < 10 then d
    else
      var s := NatToString(n / 10) + d;
      assert s[..|s| - 1] == NatToString(n / 10);
      s
  }

  /**
   * The class-count message names the target column right after its fixed
   * lead, ends with a full stop, and the digits between the last space and
   * that full stop read back as the reported count.
   */
  lemma ClassCountMessage(c: string, n: nat)
    ensures var msg := Message(TargetClassCount(c, n));
      var digits := NatToString(n);
      var end := |msg| - 1;
      && |msg| == |ClassCountLead| + |c| + |ClassCountMiddle| + |digits| + 1
      && msg[|ClassCountLead|..|ClassCountLead| + |c|] == c
      && msg[end] == '.'
      && msg[end - |digits| - 1] == ' '
      && (forall i :: end - |digits| <= i < end ==> msg[i] != ' ')
      && DigitsValue(msg[end - |digits|..end]) == n
  {
    var msg := Message(TargetClassCount(c, n));
    var digits := NatToString(n);
    var lead := ClassCountLead + c + ClassCountMiddle;
    assert msg == lead + digits + ".";
    assert msg[..|ClassCountLead| + |c|] == ClassCountLead + c;
    assert msg[|msg| - 1 - |digits|..|msg| - 1] == digits;
  }

  // ---------------------------------------------------------------------------
  // Schema inference

  /** The names whose flag is set, in their original order. */
  function NumericColumns(names: seq<string>, numeric: seq<bool>): (r: seq<string>)
    requires |names| == |numeric|
    ensures |r| <= |names|
    ensures forall i :: 0 <= i < |r| ==> r[i] in names
    ensures forall c :: c in r <==> exists k :: 0 <= k < |names| && names[k] == c && numeric[k]
  {
    if |names| == 0 then []
    else (if numeric[0] then [names[0]] else []) + NumericColumns(names[1..], numeric[1..])
  }

  /** NumericColumns keeps the relative order of the names it keeps and repeats none. */
  lemma {:induction false} NumericColumnsInOrder(names: seq<string>, numeric: seq<bool>)
    requires |names| == |numeric| && Distinct(names)
    ensures var r := NumericColumns(names, numeric);
      && Distinct(r)
      && forall j, k :: 0 <= j < k < |r| ==> IndexOf(names, r[j]) < IndexOf(names, r[k])
  {
    if |names| > 0 {
      var tail := names[1..];
      assert Distinct(tail) by {
        forall i, j | 0 <= i < j < |tail| ensures tail[i] != tail[j] {
          assert tail[i] == names[i + 1] && tail[j] == names[j + 1];
        }
      }
      NumericColumnsInOrder(tail, numeric[1..]);
      var rest := NumericColumns(tail, numeric[1..]);
      forall x | x in rest ensures x != names[0] && IndexOf(names, x) == 1 + IndexOf(tail, x) {
        var k :| 0 <= k < |tail| && tail[k] == x;
        assert names[k + 1] == x;
      }
    }
  }

  /** `data.columns[-1]`: the target is the last column, whatever its name or dtype. */
  function TargetColumn(t: Table): (c: string)
    requires WellFormed(t) && |t.columns| > 0
    ensures c in t.columns && IndexOf(t.columns, c) == |t.columns| - 1
  {
    IndexOfDistinct(t.columns, |t.columns| - 1);
    t.columns[|t.columns| - 1]
  }

  /** The numeric columns among all but the last. */
  function FeatureColumns(t: Table): seq<string>
    requires WellFormed(t) && |t.columns| > 0
  {
    var n := |t.columns| - 1;
    NumericColumns(t.columns[..n], t.numeric[..n])
  }

  /**
   * The features are exactly the numeric columns other than the target, in
   * column order; the target is never a feature, and features plus target
   * name distinct columns of the table.
   */
  lemma FeatureColumnsSpec(t: Table)
    requires WellFormed(t) && |t.columns| > 0
    ensures var fs := FeatureColumns(t);
      && (forall c :: c in fs <==> c in t.columns && c != TargetColumn(t) && t.numeric[IndexOf(t.columns, c)])
      && (forall j, k :: 0 <= j < k < |fs| ==> IndexOf(t.columns, fs[j]) < IndexOf(t.columns, fs[k]))
      && Covers(t, fs)
      && Distinct(fs + [TargetColumn(t)])
  {
    SchemaOf(t.columns, t.numeric);
  }

  /**
   * FeatureColumnsSpec, stated on the header (names and dtype flags) rather
   * than on the table, so that its proof does not carry the rows. It is
   * proved in two halves, SchemaMembership and SchemaOrder.
   */
  lemma SchemaOf(names: seq<string>, numeric: seq<bool>)
    requires |names| == |numeric| && |names| > 0 && Distinct(names)
    ensures var n := |names| - 1;
      var fs := NumericColumns(names[..n], numeric[..n]);
      && (forall c :: c in fs <==> c in names && c != names[n] && numeric[IndexOf(names, c)])
      && (forall j, k :: 0 <= j < k < |fs| ==> IndexOf(names, fs[j]) < IndexOf(names, fs[k]))
      && (forall c :: c in fs ==> c in names)
      && Distinct(fs + [names[n]])
  {
    var n := |names| - 1;
    var pre := names[..n];
    var fs := NumericColumns(pre, numeric[..n]);
    SchemaMembership(names, numeric);
    SchemaOrder(names, numeric);
    assert names[n] !in fs;
    var all := fs + [names[n]];
    forall i, j | 0 <= i < j < |all| ensures all[i] != all[j] {
      if j < |fs| {
        assert all[i] == fs[i] && all[j] == fs[j];
      }
    }
  }

  /** The membership half of SchemaOf. */
  lemma SchemaMembership(names: seq<string>, numeric: seq<bool>)
    requires |names| == |numeric| && |names| > 0 && Distinct(names)
    ensures var n := |names| - 1;
      var fs := NumericColumns(names[..n], numeric[..n]);
      forall c :: c in fs <==> c in names && c != names[n] && numeric[IndexOf(names, c)]
  {
    var n := |names| - 1;
    var pre := names[..n];
    var flags := numeric[..n];
    var fs := NumericColumns(pre, flags);
    forall c ensures c in fs <==> c in names && c != names[n] && numeric[IndexOf(names, c)] {
      if c in fs {
        var k :| 0 <= k < n && pre[k] == c && flags[k];
        IndexOfDistinct(names, k);
      }
      if c in names && c != names[n] {
        var k := IndexOf(names, c);
        assert k < n && pre[k] == c;
      }
    }
  }

  /** The order half of SchemaOf. */
  lemma SchemaOrder(names: seq<string>, numeric: seq<bool>)
    requires |names| == |numeric| && |names| > 0 && Distinct(names)
    ensures var n := |names| - 1;
      var fs := NumericColumns(names[..n], numeric[..n]);
      && Distinct(fs)
      && forall j, k :: 0 <= j < k < |fs| ==> IndexOf(names, fs[j]) < IndexOf(names, fs[k])
  {
    var n := |names| - 1;
    var pre := names[..n];
    var fs := NumericColumns(pre, numeric[..n]);
    assert Distinct(pre);
    NumericColumnsInOrder(pre, numeric[..n]);
    forall j, k | 0 <= j < k < |fs| ensures IndexOf(names, fs[j]) < IndexOf(names, fs[k]) {
      IndexOfPrefix(names, pre, fs[j]);
      IndexOfPrefix(names, pre, fs[k]);
    }
  }

  // ---------------------------------------------------------------------------
  // Cleaning

  /** The columns `preprocess_data` keeps: the features, then the target. */
  function Kept(t: Table): (kept: seq<string>)
    requires WellFormed(t) && |t.columns| > 0
    ensures Distinct(kept) && Covers(t, kept)
    ensures forall c :: c in kept <==> c in t.columns && (c == TargetColumn(t) || t.numeric[IndexOf(t.columns, c)])
  {
    FeatureColumnsSpec(t);
    FeatureColumns(t) + [TargetColumn(t)]
  }

  /**
   * Cleaning fails exactly when some row has a missing cell in the target
   * column or in a numeric column.
   */
  lemma CleaningFailsOnRetainedNull(t: Table)
    requires WellFormed(t) && |t.columns| > 0
    ensures HasNull(Select(t, Kept(t))) <==>
      exists i, c :: 0 <= i < |t.rows| && c in t.columns && CellAt(t, i, c).None?
        && (c == TargetColumn(t) || t.numeric[IndexOf(t.columns, c)])
  {
    SelectHasNull(t, Kept(t));
  }

  /** Missing cells in dropped (non-numeric, non-target) columns never make cleaning fail. */
  lemma NullsInDroppedColumnsIgnored(t: Table)
    requires WellFormed(t) && |t.columns| > 0
    requires forall i, k :: 0 <= i < |t.rows| && 0 <= k < |t.columns| && t.rows[i][k].None? ==>
      k < |t.columns| - 1 && !t.numeric[k]
    ensures !HasNull(Select(t, Kept(t)))
  {
    CleaningFailsOnRetainedNull(t);
  }

  // ---------------------------------------------------------------------------
  // Normalisation and splitting

  /**
   * The per-feature rescaling `(value - mean) / std`, seen as a function of the
   * whole column and one of its values.
   */
  type Scale = (seq<Value>, Value) -> Value

  /**
   * The first `features` columns are rescaled, each with statistics of the
   * whole column (all rows, before any split); every other cell, the row
   * order and the row count are untouched.
   */
  function Normalise(g: seq<seq<Value>>, features: nat, scale: Scale): (r: seq<seq<Value>>)
    requires forall i :: 0 <= i < |g| ==> features <= |g[i]|
    ensures |r| == |g|
    ensures forall i :: 0 <= i < |g| ==> |r[i]| == |g[i]|
    ensures forall i, k :: 0 <= i < |g| && 0 <= k < features ==> r[i][k] == scale(ColumnOf(g, k), g[i][k])
    ensures forall i, k :: 0 <= i < |g| && features <= k < |g[i]| ==> r[i][k] == g[i][k]
  {
    seq(|g|, i requires 0 <= i < |g| =>
      seq(|g[i]|, k requires 0 <= k < |g[i]| =>
        if k < features then scale(ColumnOf(g, k), g[i][k]) else g[i][k]))
  }

  /** The values of the last column of a cleaned table. */
  function TargetValues(t: Table): seq<Value>
    requires WellFormed(t) && !HasNull(t) && |t.columns| > 0
  {
    ColumnOf(Strip(t), |t.columns| - 1)
  }

  /** `dataset[target].unique()` on a cleaned table whose last column is the target. */
  function TargetClasses(t: Table): seq<Value>
    requires WellFormed(t) && !HasNull(t) && |t.columns| > 0
  {
    Unique(TargetValues(t))
  }

  /** Normalisation leaves the column after the features (the target) as it was. */
  lemma NormaliseKeepsTarget(g: seq<seq<Value>>, nf: nat, scale: Scale)
    requires Rectangular(g, nf + 1)
    ensures Rectangular(Normalise(g, nf, scale), nf + 1)
    ensures ColumnOf(Normalise(g, nf, scale), nf) == ColumnOf(g, nf)
  {
  }

  /** `dataset[target].map(target_map)`: the encoded label of every row of a two-class table. */
  function TargetLabels(t: Table): (labels: seq<int>)
    requires WellFormed(t) && !HasNull(t) && |t.columns| > 0 && |TargetClasses(t)| == 2
    ensures |labels| == |t.rows|
    ensures forall i :: 0 <= i < |labels| ==> labels[i] == 0 || labels[i] == 1
  {
    EncodedLabels(TargetValues(t));
    Encode(TargetValues(t), LabelMap(TargetClasses(t)))
  }

  /** The name of the column `split_data` stores the encoded labels in. */
  const TargetBinary: string := "target_binary"

  /**
   * `frame['target_binary'] = labels` on a frame with the given column names:
   * a column already carrying that name has its cells replaced by the labels,
   * as numbers; every other cell is kept. When no column has the name, pandas
   * appends one, which the runner reads only as the label sequence itself.
   */
  function AssignTargetBinary(g: seq<seq<Value>>, names: seq<string>, labels: seq<int>): (r: seq<seq<Value>>)
    requires Rectangular(g, |names|) && |labels| == |g|
    ensures |r| == |g| && Rectangular(r, |names|)
    ensures forall i, k :: 0 <= i < |g| && 0 <= k < |names| && names[k] != TargetBinary ==> r[i][k] == g[i][k]
    ensures forall i, k :: 0 <= i < |g| && 0 <= k < |names| && names[k] == TargetBinary ==> r[i][k] == Num(labels[i] as real)
  {
    seq(|g|, i requires 0 <= i < |g| =>
      seq(|names|, k requires 0 <= k < |names| =>
        if names[k] == TargetBinary then Num(labels[i] as real) else g[i][k]))
  }

  /**
   * The frame `split_data` selects its features from: the cleaned cells with
   * the features normalised, then the `target_binary` assignment, which
   * overwrites a feature column of that name with the labels.
   */
  function Prepared(t: Table, nf: nat, scale: Scale): (g: seq<seq<Value>>)
    requires WellFormed(t) && |t.columns| == nf + 1 && !HasNull(t) && |TargetClasses(t)| == 2
    ensures |g| == |t.rows| && Rectangular(g, nf + 1)
    ensures forall i, k :: 0 <= i < |g| && 0 <= k < nf ==>
      g[i][k] == if t.columns[k] == TargetBinary then Num(TargetLabels(t)[i] as real)
                 else scale(ColumnOf(Strip(t), k), Strip(t)[i][k])
  {
    NormaliseKeepsTarget(Strip(t), nf, scale);
    AssignTargetBinary(Normalise(Strip(t), nf, scale), t.columns, TargetLabels(t))
  }

  /** Rows of one partition: pandas index, feature values and 0/1 labels. */
  datatype Part = Part(index: seq<nat>, features: seq<seq<Value>>, labels: seq<int>)

  /** What `split_data` returns: train features and labels, test features and labels. */
  datatype Split = Split(train: Part, test: Part)

  /**
   * p holds, in the order of index, the first nf (feature) cells of the rows
   * of g at those positions, and the labels of those rows.
   */
  predicate IsPartOf(p: Part, index: seq<nat>, g: seq<seq<Value>>, nf: nat, labels: seq<int>) {
    && p.index == index
    && |p.features| == |index| && |p.labels| == |index|
    && forall k :: 0 <= k < |index| ==>
      && index[k] < |g| && index[k] < |labels| && nf <= |g[index[k]]|
      && p.features[k] == g[index[k]][..nf]
      && p.labels[k] == labels[index[k]]
  }

  /** The training and test partitions are the rows the shuffle split assigns them. */
  predicate IsSplitOf(s: Split, perm: seq<nat>, g: seq<seq<Value>>, nf: nat, labels: seq<int>) {
    var parts := ShuffleSplit(perm);
    IsPartOf(s.train, parts.train, g, nf, labels) && IsPartOf(s.test, parts.test, g, nf, labels)
  }

  /** `frame.iloc[index]` on the feature columns and on the labels. */
  function TakeRows(index: seq<nat>, g: seq<seq<Value>>, nf: nat, labels: seq<int>): (p: Part)
    requires forall k :: 0 <= k < |index| ==> index[k] < |g| && index[k] < |labels| && nf <= |g[index[k]]|
    ensures IsPartOf(p, index, g, nf, labels)
  {
    Part(index,
      seq(|index|, k requires 0 <= k < |index| => g[index[k]][..nf]),
      seq(|index|, k requires 0 <= k < |index| => labels[index[k]]))
  }

  /** `train_test_split(features, labels, test_size=0.2)` with the seeded shuffle perm. */
  function SplitRows(perm: seq<nat>, g: seq<seq<Value>>, nf: nat, labels: seq<int>): (s: Split)
    requires IsPermutation(perm, |g|) && |labels| == |g|
    requires forall i :: 0 <= i < |g| ==> nf <= |g[i]|
    ensures IsSplitOf(s, perm, g, nf, labels)
    ensures Rectangular(s.train.features, nf) && Rectangular(s.test.features, nf)
  {
    var parts := ShuffleSplit(perm);
    ShuffleSplitPartitions(perm, |g|);
    Split(TakeRows(parts.train, g, nf, labels), TakeRows(parts.test, g, nf, labels))
  }

  /**
   * Every row of the cleaned table lands in exactly one partition, at least
   * one row is left for training, and every label handed to training or
   * evaluation is 0 or 1.
   */
  lemma SplitPartitionsRows(s: Split, perm: seq<nat>, g: seq<seq<Value>>, nf: nat, labels: seq<int>)
    requires |g| >= 2 && IsPermutation(perm, |g|)
    requires forall i :: 0 <= i < |labels| ==> labels[i] == 0 || labels[i] == 1
    requires IsSplitOf(s, perm, g, nf, labels)
    ensures forall v :: 0 <= v < |g| ==> (v in s.train.index <==> v !in s.test.index)
    ensures |s.train.labels| + |s.test.labels| == |g|
    ensures |s.test.labels| == TestCount(|g|) && |s.train.labels| > 0
    ensures forall l :: l in s.train.labels || l in s.test.labels ==> l == 0 || l == 1
  {
    ShuffleSplitPartitions(perm, |g|);
    forall l | l in s.train.labels || l in s.test.labels ensures l == 0 || l == 1 {
      if l in s.train.labels {
        var k := IndexOf(s.train.labels, l);
        assert l == labels[s.train.index[k]];
      } else {
        var k := IndexOf(s.test.labels, l);
        assert l == labels[s.test.index[k]];
      }
    }
  }

  /**
   * What `split_data` computes from a cleaned table whose last column is the
   * target: the class-count error, or the shuffled split of the prepared
   * frame's feature cells and of the encoded labels.
   */
  function SplitTable(dataset: Table, nf: nat, targetName: string, perm: seq<nat>, scale: Scale): (r: Result<Split, RunError>)
    requires WellFormed(dataset) && |dataset.columns| == nf + 1 && !HasNull(dataset)
    requires IsPermutation(perm, |dataset.rows|)
    ensures r.Failure? <==> |TargetClasses(dataset)| != 2
    ensures r.Failure? ==> r.error == TargetClassCount(targetName, |TargetClasses(dataset)|)
    ensures r.Success? ==> IsSplitOf(r.value, perm, Prepared(dataset, nf, scale), nf, TargetLabels(dataset))
    ensures r.Success? ==> Rectangular(r.value.train.features, nf) && Rectangular(r.value.test.features, nf)
  {
    var classes := TargetClasses(dataset);
    if |classes| != 2 then Failure(TargetClassCount(targetName, |classes|))
    else Success(SplitRows(perm, Prepared(dataset, nf, scale), nf, TargetLabels(dataset)))
  }

  /**
   * The feature rows of a part are those `split_data` hands on for the rows
   * it selects: the normalised value of that row and feature, except in a
   * feature column named `target_binary`, which holds the row's 0/1 label.
   */
  predicate HandsOnCells(p: Part, t: Table, nf: nat, scale: Scale)
    requires WellFormed(t) && |t.columns| == nf + 1 && !HasNull(t)
  {
    && |p.features| == |p.index| == |p.labels|
    && forall j :: 0 <= j < |p.index| ==>
         && p.index[j] < |t.rows| && |p.features[j]| == nf
         && forall k :: 0 <= k < nf ==>
              p.features[j][k] == if t.columns[k] == TargetBinary then Num(p.labels[j] as real)
                                  else scale(ColumnOf(Strip(t), k), Strip(t)[p.index[j]][k])
  }

  /** A part taken from the prepared frame holds the cells `HandsOnCells` describes. */
  lemma PartFeatureCells(p: Part, index: seq<nat>, t: Table, nf: nat, scale: Scale)
    requires WellFormed(t) && |t.columns| == nf + 1 && !HasNull(t) && |TargetClasses(t)| == 2
    requires IsPartOf(p, index, Prepared(t, nf, scale), nf, TargetLabels(t))
    ensures HandsOnCells(p, t, nf, scale)
  {
    var g := Prepared(t, nf, scale);
    forall j, k | 0 <= j < |index| && 0 <= k < nf
      ensures p.features[j][k] == g[index[j]][k]
    {
      assert p.features[j] == g[index[j]][..nf];
    }
  }

  /**
   * What `split_data` hands on: each training and test feature cell is the
   * normalised value of that row and feature, except that a feature column
   * named `target_binary` has been overwritten with the row's 0/1 label.
   */
  lemma SplitTableFeatures(dataset: Table, nf: nat, targetName: string, perm: seq<nat>, scale: Scale)
    requires WellFormed(dataset) && |dataset.columns| == nf + 1 && !HasNull(dataset)
    requires IsPermutation(perm, |dataset.rows|) && |TargetClasses(dataset)| == 2
    ensures SplitTable(dataset, nf, targetName, perm, scale).Success?
    ensures var s := SplitTable(dataset, nf, targetName, perm, scale).value;
      HandsOnCells(s.train, dataset, nf, scale) && HandsOnCells(s.test, dataset, nf, scale)
  {
    var s := SplitTable(dataset, nf, targetName, perm, scale).value;
    var parts := ShuffleSplit(perm);
    PartFeatureCells(s.train, parts.train, dataset, nf, scale);
    PartFeatureCells(s.test, parts.test, dataset, nf, scale);
  }

  // ---------------------------------------------------------------------------
  // Model inputs

  /**
   * `{col: np.array(frame[col]) for col in feature_columns}`: one entry per
   * feature, holding that feature's values in the frame's row order.
   */
  function FeatureDict(features: seq<string>, rows: seq<seq<Value>>): (d: Inputs)
    requires Distinct(features) && Rectangular(rows, |features|)
    ensures d.Keys == Elements(features)
    ensures forall k :: 0 <= k < |features| ==>
      |d[features[k]]| == |rows| && forall i :: 0 <= i < |rows| ==> d[features[k]][i] == rows[i][k]
  {
    map c | c in features :: ColumnOf(rows, IndexOf(features, c))
  }

  /** A call into the Keras library, in the order the runner makes them. */
  datatype Call =
    | BuildModel(model: Model)
    | Fit(inputs: Inputs, labels: seq<int>, config: FitConfig)
    | Evaluate(inputs: Inputs, labels: seq<int>)

  /** The dictionary `run_experiment` returns. */
  datatype ExperimentResult = ExperimentResult(
    testAccuracy: real,
    trainingHistory: map<string, seq<real>>,
    targetMap: map<Value, int>,
    featureColumns: seq<string>)

  /**
   * The outcome of `run_experiment`, the library calls it made, and the label
   * map it stored in `self.target_map` (None when it failed before that).
   */
  datatype Run = Run(result: Result<ExperimentResult, RunError>, calls: seq<Call>, labelMap: Option<map<Value, int>>)

  /**
   * The Keras part of `run_experiment`, after `split_data` has stored m:
   * build the model over the features, fit it on the training partition
   * (Keras first holds out a validation share, and raises when either share
   * would be empty), evaluate it on the test partition.
   */
  function ModelStage(features: seq<string>, s: Split, m: map<Value, int>, fit: FitFunction, evaluate: EvaluateFunction): (run: Run)
    requires Distinct(features)
    requires Rectangular(s.train.features, |features|) && Rectangular(s.test.features, |features|)
    ensures run.labelMap == Some(m)
  {
    match CreateModel(features, LearningRate)
    case Failure(e) => Run(Failure(ModelRejected(e)), [], Some(m))
    case Success(model) =>
      var trainInputs := FeatureDict(features, s.train.features);
      var fitCall := Fit(trainInputs, s.train.labels, Training);
      if !CanHoldOutValidation(|s.train.labels|) then
        Run(Failure(ValidationSplitTooSmall(|s.train.labels|)), [BuildModel(model), fitCall], Some(m))
      else
        var fitted := fit(model, trainInputs, s.train.labels, Training);
        var testInputs := FeatureDict(features, s.test.features);
        var evaluation := evaluate(model, fitted.weights, testInputs, s.test.labels);
        Run(
          Success(ExperimentResult(evaluation.accuracy, fitted.history, m, features)),
          [BuildModel(model), fitCall, Evaluate(testInputs, s.test.labels)],
          Some(m))
  }

  /** The runner state `run_experiment` needs: a table holding the features and the target. */
  predicate Runnable(data: Table, features: seq<string>, target: string) {
    WellFormed(data) && Covers(data, features + [target]) && Distinct(features + [target])
  }

  /**
   * `run_experiment` from the runner's table, feature list and target name:
   * clean, split, then build, train and evaluate.
   */
  function Experiment(data: Table, features: seq<string>, target: string, perm: seq<nat>, scale: Scale,
                      fit: FitFunction, evaluate: EvaluateFunction): Run
    requires Runnable(data, features, target) && IsPermutation(perm, |data.rows|)
  {
    var cleaned := Select(data, features + [target]);
    if HasNull(cleaned) then Run(Failure(MissingValues), [], None)
    else
      var split := SplitTable(cleaned, |features|, target, perm, scale);
      if split.Failure? then Run(Failure(split.error), [], None)
      else
        DistinctAppend(features, target);
        ModelStage(features, split.value, LabelMap(TargetClasses(cleaned)), fit, evaluate)
  }

  /**
   * The input checks fail before any library call and before the label map
   * is stored: a missing value in a retained column gives the missing-values
   * error, and otherwise a target without exactly two distinct values gives
   * the class-count error reporting their number. Past both checks the label
   * map of the cleaned target is stored.
   */
  lemma ExperimentFailsBeforeModel(data: Table, features: seq<string>, target: string, perm: seq<nat>, scale: Scale,
                                   fit: FitFunction, evaluate: EvaluateFunction)
    requires Runnable(data, features, target) && IsPermutation(perm, |data.rows|)
    ensures var run := Experiment(data, features, target, perm, scale, fit, evaluate);
      var cleaned := Select(data, features + [target]);
      && (run.result == Failure(MissingValues) <==> HasNull(cleaned))
      && (HasNull(cleaned) ==> run.calls == [] && run.labelMap.None?)
      && (!HasNull(cleaned) ==>
            && (run.labelMap.Some? <==> |TargetClasses(cleaned)| == 2)
            && (|TargetClasses(cleaned)| != 2 ==>
                  && run.result == Failure(TargetClassCount(target, |Elements(TargetValues(cleaned))|))
                  && run.calls == [])
            && (|TargetClasses(cleaned)| == 2 ==> run.labelMap == Some(LabelMap(TargetClasses(cleaned)))))
  {
    var cleaned := Select(data, features + [target]);
    var run := Experiment(data, features, target, perm, scale, fit, evaluate);
    if HasNull(cleaned) {
      assert run == Run(Failure(MissingValues), [], None);
    } else if |TargetClasses(cleaned)| != 2 {
      UniqueCount(TargetValues(cleaned));
      assert run == Run(Failure(TargetClassCount(target, |TargetClasses(cleaned)|)), [], None);
    } else {
      var split := SplitTable(cleaned, |features|, target, perm, scale);
      DistinctAppend(features, target);
      assert run == ModelStage(features, split.value, LabelMap(TargetClasses(cleaned)), fit, evaluate);
    }
  }

  /**
   * The Keras stage fails without any call when the network is refused, and
   * otherwise after building and fitting exactly when the training part is
   * too small to hold out a validation share.
   */
  lemma ModelStageErrors(features: seq<string>, s: Split, m: map<Value, int>, fit: FitFunction, evaluate: EvaluateFunction)
    requires Distinct(features)
    requires Rectangular(s.train.features, |features|) && Rectangular(s.test.features, |features|)
    ensures var run := ModelStage(features, s, m, fit, evaluate);
      var built := CreateModel(features, LearningRate);
      && (built.Failure? ==> run.result == Failure(ModelRejected(built.error)) && run.calls == [])
      && (built.Success? ==> (run.result.Failure? <==> |s.train.labels| < 2))
      && (built.Success? && |s.train.labels| < 2 ==>
            && run.result == Failure(ValidationSplitTooSmall(|s.train.labels|))
            && |run.calls| == 2 && run.calls[0] == BuildModel(built.value) && run.calls[1].Fit?)
  {
    HoldOutNeedsTwoSamples(|s.train.labels|);
  }

  /**
   * Past the input checks, the run fails in Keras in two ways: the network is
   * refused (no features, or a feature named like the dense layer), with no
   * call made; or, for a two-row table, `fit` cannot hold out a validation
   * share from its single training row, after the model was built.
   */
  lemma ExperimentModelErrors(data: Table, features: seq<string>, target: string, perm: seq<nat>, scale: Scale,
                              fit: FitFunction, evaluate: EvaluateFunction)
    requires Runnable(data, features, target) && IsPermutation(perm, |data.rows|)
    ensures var run := Experiment(data, features, target, perm, scale, fit, evaluate);
      var cleaned := Select(data, features + [target]);
      var built := CreateModel(features, LearningRate);
      !HasNull(cleaned) && |TargetClasses(cleaned)| == 2 ==>
        && (built.Failure? ==> run.result == Failure(ModelRejected(built.error)) && run.calls == [])
        && (built.Success? ==> (run.result.Failure? <==> |data.rows| == 2))
        && (built.Success? && |data.rows| == 2 ==>
              && run.result == Failure(ValidationSplitTooSmall(1))
              && |run.calls| == 2 && run.calls[0] == BuildModel(built.value) && run.calls[1].Fit?)
  {
    var cleaned := Select(data, features + [target]);
    if !HasNull(cleaned) && |TargetClasses(cleaned)| == 2 {
      var nf := |features|;
      var n := |data.rows|;
      var split := SplitTable(cleaned, nf, target, perm, scale);
      assert n >= 2 by {
        assert |TargetClasses(cleaned)| <= |TargetValues(cleaned)|;
      }
      SplitPartitionsRows(split.value, perm, Prepared(cleaned, nf, scale), nf, TargetLabels(cleaned));
      DistinctAppend(features, target);
      assert Experiment(data, features, target, perm, scale, fit, evaluate)
          == ModelStage(features, split.value, LabelMap(TargetClasses(cleaned)), fit, evaluate);
      ModelStageErrors(features, split.value, LabelMap(TargetClasses(cleaned)), fit, evaluate);
      assert |split.value.train.labels| >= 2 <==> n >= 3;
    }
  }

  /**
   * The Keras stage succeeds only with a buildable network and at least two
   * training rows; it then makes the three calls in order and reports what
   * that fit and that evaluation returned.
   */
  lemma ModelStageSucceeds(features: seq<string>, s: Split, m: map<Value, int>, fit: FitFunction, evaluate: EvaluateFunction)
    requires Distinct(features)
    requires Rectangular(s.train.features, |features|) && Rectangular(s.test.features, |features|)
    ensures var run := ModelStage(features, s, m, fit, evaluate);
      run.result.Success? ==>
        && |features| > 0 && DenseLayerName !in features && |s.train.labels| >= 2
        && run.result.value.featureColumns == features && run.result.value.targetMap == m
        && |run.calls| == 3
        && run.calls[0] == BuildModel(CreateModel(features, LearningRate).value)
        && run.calls[1] == Fit(FeatureDict(features, s.train.features), s.train.labels, Training)
        && run.calls[2] == Evaluate(FeatureDict(features, s.test.features), s.test.labels)
        && var fitted := fit(run.calls[0].model, run.calls[1].inputs, run.calls[1].labels, Training);
          && run.result.value.trainingHistory == fitted.history
          && run.result.value.testAccuracy
             == evaluate(run.calls[0].model, fitted.weights, run.calls[2].inputs, run.calls[2].labels).accuracy
  {
    HoldOutNeedsTwoSamples(|s.train.labels|);
  }

  /**
   * A successful run has at least one feature, none named like the dense
   * layer, and at least three rows; it reports the runner's feature list and
   * the stored label map of the cleaned target; it builds one model over the
   * features, fits it on the training part of the split and evaluates it on
   * the ceil(n / 5) test rows, each through the per-feature input mapping of
   * that part, with every label 0 or 1; and it returns the history of that
   * fit and the accuracy of that evaluation.
   */
  lemma ExperimentSucceeds(data: Table, features: seq<string>, target: string, perm: seq<nat>, scale: Scale,
                           fit: FitFunction, evaluate: EvaluateFunction)
    requires Runnable(data, features, target) && IsPermutation(perm, |data.rows|)
    ensures var run := Experiment(data, features, target, perm, scale, fit, evaluate);
      var cleaned := Select(data, features + [target]);
      run.result.Success? ==>
        && !HasNull(cleaned) && |TargetClasses(cleaned)| == 2 && Distinct(features)
        && |features| > 0 && DenseLayerName !in features && |data.rows| >= 3
        && run.result.value.featureColumns == features
        && run.labelMap == Some(LabelMap(TargetClasses(cleaned)))
        && run.result.value.targetMap == LabelMap(TargetClasses(cleaned))
        && SplitTable(cleaned, |features|, target, perm, scale).Success?
        && var s := SplitTable(cleaned, |features|, target, perm, scale).value;
          && |run.calls| == 3
          && run.calls[0] == BuildModel(CreateModel(features, LearningRate).value)
          && run.calls[1] == Fit(FeatureDict(features, s.train.features), s.train.labels, Training)
          && run.calls[2] == Evaluate(FeatureDict(features, s.test.features), s.test.labels)
          && |s.train.labels| + |s.test.labels| == |data.rows|
          && |s.test.labels| == TestCount(|data.rows|)
          && (forall l :: l in s.train.labels || l in s.test.labels ==> l == 0 || l == 1)
          && var fitted := fit(run.calls[0].model, run.calls[1].inputs, run.calls[1].labels, Training);
            && run.result.value.trainingHistory == fitted.history
            && run.result.value.testAccuracy
               == evaluate(run.calls[0].model, fitted.weights, run.calls[2].inputs, run.calls[2].labels).accuracy
  {
    var cleaned := Select(data, features + [target]);
    DistinctAppend(features, target);
    if !HasNull(cleaned) && |TargetClasses(cleaned)| == 2 {
      var nf := |features|;
      var split := SplitTable(cleaned, nf, target, perm, scale);
      assert |cleaned.rows| >= 2 by {
        assert |TargetClasses(cleaned)| <= |TargetValues(cleaned)|;
      }
      SplitPartitionsRows(split.value, perm, Prepared(cleaned, nf, scale), nf, TargetLabels(cleaned));
      ModelStageSucceeds(features, split.value, LabelMap(TargetClasses(cleaned)), fit, evaluate);
      assert Experiment(data, features, target, perm, scale, fit, evaluate)
          == ModelStage(features, split.value, LabelMap(TargetClasses(cleaned)), fit, evaluate);
    }
  }

  // ---------------------------------------------------------------------------
  // The runner object

  class Runner {
    var data: Table
    var randomState: int
    var targetColumn: string
    var featureColumns: seq<string>
    /** None until `split_data` has assigned `self.target_map`. */
    var targetMap: Option<map<Value, int>>

    ghost predicate Valid()
      reads this
    {
      Runnable(data, featureColumns, targetColumn)
    }

    /** `__init__` on a table with at least one column. */
    constructor (data: Table, randomState: int := DefaultRandomState)
      requires WellFormed(data) && |data.columns| > 0
      ensures Valid()
      ensures this.data == data && this.randomState == randomState
      ensures targetColumn == TargetColumn(data) && featureColumns == FeatureColumns(data)
      ensures targetMap == None
    {
      FeatureColumnsSpec(data);
      this.data := data;
      this.randomState := randomState;
      targetColumn := TargetColumn(data);
      featureColumns := FeatureColumns(data);
      targetMap := None;
    }

    /** `LogisticsRunner(data, random_state)`, including the IndexError of a table without columns. */
    static method New(data: Table, randomState: int := DefaultRandomState) returns (r: Result<Runner, RunError>)
      requires WellFormed(data)
      ensures r.Failure? <==> |data.columns| == 0
      ensures r.Failure? ==> r.error == NoColumns
      ensures r.Success? ==>
        && fresh(r.value) && r.value.Valid()
        && r.value.data == data && r.value.randomState == randomState
        && r.value.targetColumn == TargetColumn(data)
        && r.value.featureColumns == FeatureColumns(data)
        && r.value.targetMap == None
    {
      if |data.columns| == 0 {
        return Failure(NoColumns);
      }
      var runner := new Runner(data, randomState);
      return Success(runner);
    }

    /**
     * `preprocess_data`: `self.data` becomes the projection on the features
     * and the target (also when the null check then fails), and the call
     * fails exactly when that projection has a missing cell.
     */
    method PreprocessData() returns (r: Result<Table, RunError>)
      requires Valid()
      modifies this`data
      ensures Valid()
      ensures data == Select(old(data), featureColumns + [targetColumn])
      ensures data.columns == featureColumns + [targetColumn] && |data.rows| == |old(data).rows|
      ensures r.Failure? <==> HasNull(data)
      ensures r.Failure? ==> r.error == MissingValues
      ensures r.Success? ==> r.value == data
    {
      data := Select(data, featureColumns + [targetColumn]);
      if HasNull(data) {
        return Failure(MissingValues);
      }
      return Success(data);
    }

    /**
     * `split_data` on the output of `preprocess_data`: normalises the
     * features, fails unless the target has exactly two distinct values,
     * records the label map (first-seen value to 0, the other to 1) and
     * splits the rows with the seeded shuffle.
     */
    method SplitData(dataset: Table, shuffle: Shuffle, scale: Scale) returns (r: Result<Split, RunError>)
      requires Valid()
      requires WellFormed(dataset) && dataset.columns == featureColumns + [targetColumn] && !HasNull(dataset)
      requires IsPermutation(shuffle(randomState, |dataset.rows|), |dataset.rows|)
      modifies this`targetMap
      ensures r == SplitTable(dataset, |featureColumns|, targetColumn, shuffle(randomState, |dataset.rows|), scale)
      ensures targetMap == if r.Success? then Some(LabelMap(TargetClasses(dataset))) else old(targetMap)
    {
      var raw := Strip(dataset);
      var nf := |featureColumns|;
      var normalised := Normalise(raw, nf, scale);
      NormaliseKeepsTarget(raw, nf, scale);
      var target := ColumnOf(normalised, nf);
      assert target == TargetValues(dataset) by {
        assert |dataset.columns| == nf + 1;
      }
      var classes := Unique(target);
      if |classes| != 2 {
        return Failure(TargetClassCount(targetColumn, |classes|));
      }
      var m := LabelMap(classes);
      targetMap := Some(m);
      EncodedLabels(target);
      var labels := Encode(target, m);
      var framed := AssignTargetBinary(normalised, dataset.columns, labels);
      r := Success(SplitRows(shuffle(randomState, |raw|), framed, nf, labels));
    }

    /**
     * `run_experiment`: `self.data` is cleaned in place, `self.target_map` is
     * set when the class check passes, and the result and the library calls
     * are those of Experiment on the runner's initial state.
     */
    method RunExperiment(shuffle: Shuffle, scale: Scale, fit: FitFunction, evaluate: EvaluateFunction)
      returns (r: Result<ExperimentResult, RunError>, calls: seq<Call>)
      requires Valid()
      requires IsPermutation(shuffle(randomState, |data.rows|), |data.rows|)
      modifies this`data, this`targetMap
      ensures Valid()
      ensures data == Select(old(data), featureColumns + [targetColumn])
      ensures var run := Experiment(old(data), featureColumns, targetColumn,
                                    shuffle(randomState, |old(data).rows|), scale, fit, evaluate);
        && r == run.result && calls == run.calls
        && targetMap == if run.labelMap.Some? then run.labelMap else old(targetMap)
    {
      var processed := PreprocessData();
      if processed.Failure? {
        return Failure(processed.error), [];
      }
      var split := SplitData(processed.value, shuffle, scale);
      if split.Failure? {
        return Failure(split.error), [];
      }
      var s := split.value;
      DistinctAppend(featureColumns, targetColumn);

      var built := CreateModel(featureColumns, LearningRate);
      if built.Failure? {
        return Failure(ModelRejected(built.error)), [];
      }
      var model := built.value;
      var trainInputs := FeatureDict(featureColumns, s.train.features);
      if !CanHoldOutValidation(|s.train.labels|) {
        return Failure(ValidationSplitTooSmall(|s.train.labels|)), [BuildModel(model), Fit(trainInputs, s.train.labels, Training)];
      }
      var fitted := fit(model, trainInputs, s.train.labels, Training);
      var testInputs := FeatureDict(featureColumns, s.test.features);
      var evaluation := evaluate(model, fitted.weights, testInputs, s.test.labels);
      calls := [BuildModel(model), Fit(trainInputs, s.train.labels, Training), Evaluate(testInputs, s.test.labels)];
      r := Success(ExperimentResult(evaluation.accuracy, fitted.history, targetMap.value, featureColumns));
    }
  }
}
