# LogisticsRunner, modelled in Dafny

`LogisticsRunner` trains a one-neuron logistic-regression classifier on an
uploaded table. It:

- takes the last column as the binary target;
- keeps the numeric columns before it as features;
- rejects tables with missing values;
- normalises the features;
- encodes the two target classes as 0 and 1;
- splits the rows into a training part and a test part;
- fits and evaluates a Keras model with one scalar input per feature.

This project models that pipeline:

- `wrappers.dfy`: `Option` and `Result`.
- `seqs.dfy`: repetition-free sequences, first-occurrence positions, and counting lemmas.
- `tables.dfy`: the part of a pandas `DataFrame` the runner relies on:
  - ordered column names;
  - one numeric/non-numeric dtype flag per column;
  - rows of optional cells;
  - column projection `df[cols]`;
  - the null test `isnull().any().any()`.
- `labels.dfy`: `Series.unique()` in first-appearance order, the two-entry label map, and `Series.map`.
- `splitting.dfy`: `train_test_split(test_size=0.2)`. The seeded shuffle is a given permutation of the row positions. The first ceil(n/5) of them are the test rows and the rest are the training rows.
- `classifier.dfy`: `create_model`, described as the network it builds. `model.fit` and `model.evaluate` are function parameters.
- `logistics_runner.dfy`:
  - schema inference, cleaning, normalisation, label encoding and splitting as functions;
  - `Experiment`, a specification of `run_experiment`;
  - the class `Runner`. Its fields `data`, `randomState`, `targetColumn`, `featureColumns` and `targetMap` are updated in place as in the source.

`RunExperiment` returns its result together with the sequence of Keras calls it made: building the model, fitting it, evaluating it. That sequence lets the model state that both input checks fail before a model exists. It also shows which of the two Keras failures happens after the model was built.

The normalisation `(x - mean) / std` is an opaque `Scale` function. It is applied to the whole feature column and one of its values, so the statistics come from all rows, before the split, as in the source.

Numbers are tagged `Value`s. Floating-point arithmetic is never performed.

## Model

| member | source | states |
|---|---|---|
| LogisticsRunner.TargetColumn | logistics_runner.py:10 | The target is the column at the last position, whatever its name or dtype. |
| LogisticsRunner.NumericColumns | logistics_runner.py:11 | The kept names are exactly those whose dtype flag is numeric, each taken from the header. |
| LogisticsRunner.NumericColumnsInOrder | logistics_runner.py:11 | The kept names repeat none and keep their relative header order. |
| LogisticsRunner.FeatureColumnsSpec | logistics_runner.py:10-11 | A feature is exactly a numeric column other than the target. Features appear in header order and are columns of the table. The target is never a feature, so features plus target are distinct. |
| LogisticsRunner.Runner.constructor | logistics_runner.py:7-11 | Stores the table and the seed (100 by default), sets the target and the features as above, and leaves the label map unset. The runner invariant holds. |
| LogisticsRunner.Runner.New | logistics_runner.py:7-11 | Construction fails with the `columns[-1]` IndexError exactly when the table has no columns. Otherwise it yields a fresh runner in the constructor's state. |
| Tables.Select | logistics_runner.py:15 | The projection has exactly the requested columns, in that order. Each keeps its dtype flag. The row count is unchanged, and each cell is the original cell of that row and column. |
| Tables.SelectHasNull | logistics_runner.py:15-17 | The projection has a missing cell iff some retained column has one in the original table. |
| LogisticsRunner.Kept | logistics_runner.py:15 | The retained columns are distinct columns of the table. They are exactly the target and the numeric columns. |
| LogisticsRunner.CleaningFailsOnRetainedNull | logistics_runner.py:15-18 | Cleaning finds a null iff some row misses a value in the target or in a numeric column. |
| LogisticsRunner.NullsInDroppedColumnsIgnored | logistics_runner.py:15-18 | Nulls confined to dropped non-numeric columns never make cleaning fail. |
| LogisticsRunner.Runner.PreprocessData | logistics_runner.py:13-20 | `data` becomes the projection on features followed by the target, with the row count kept. The call fails with the missing-values error iff that projection has a null. On success it returns the stored `data`. |
| LogisticsRunner.Normalise | logistics_runner.py:24-28 | Feature cells are rescaled using their whole column. All other cells, the row order and the row count are untouched. |
| LogisticsRunner.NormaliseKeepsTarget | logistics_runner.py:27-32 | The target column after normalisation is the target column before it. |
| Labels.Unique | logistics_runner.py:32 | The distinct values are without repeats and drawn from the column. Every value of the column is among them, and the first row's value comes first. |
| Labels.UniqueFirstSeen | logistics_runner.py:32-37 | Distinct values are listed in order of first appearance. |
| Labels.UniqueCount | logistics_runner.py:33-34 | The count in the class-count message is the number of distinct target values. |
| Labels.BinaryEncoding | logistics_runner.py:36-37 | With two classes, the map has exactly two keys, both target values, and every target value is a key. The first row's value maps to 0 and any other value maps to 1. |
| Labels.Encode | logistics_runner.py:38 | `target_binary` has one label per row: the map's image of that row's target. `TargetLabels` builds the labels handed to the split this way. |
| Labels.EncodedLabels | logistics_runner.py:38 | Every label is 0 or 1. A row's label is 0 iff its target equals the first row's. |
| Splitting.TestCount | logistics_runner.py:45 | The test size is the ceiling of n/5 and never exceeds n. |
| Splitting.ShuffleSplit | logistics_runner.py:44-46 | The test rows followed by the training rows are the shuffled order, and the test part has ceil(n/5) rows. |
| Splitting.ShuffleSplitPartitions | logistics_runner.py:44-46 | Every row is in exactly one part and nothing else is in either. Neither part repeats a row, and the sizes add up to n. The training part is non-empty iff n >= 2. |
| LogisticsRunner.TargetLabels | logistics_runner.py:37-38 | There is one label per row of the cleaned table, and each is 0 or 1. |
| LogisticsRunner.AssignTargetBinary | logistics_runner.py:38 | Assigning the `target_binary` column replaces every cell of a column with that name by the row's label. Every other cell, the row count and the row width are kept. |
| LogisticsRunner.Prepared | logistics_runner.py:24-40 | The frame the features are selected from keeps one row per cleaned row. A feature cell is that value rescaled against its whole column, except in a feature column named `target_binary`, where it is the row's 0/1 label. |
| LogisticsRunner.TakeRows | logistics_runner.py:40-46 | A part holds, for each selected row, its feature cells from the prepared frame and its label from the encoded label sequence. |
| LogisticsRunner.SplitRows | logistics_runner.py:40-46 | Both parts are taken from the shuffled positions. Each feature row has one cell per feature. |
| LogisticsRunner.SplitPartitionsRows | logistics_runner.py:38-46 | The training and test rows partition the cleaned table, with ceil(n/5) test rows and at least one training row. Every label handed on is 0 or 1. |
| LogisticsRunner.SplitTable | logistics_runner.py:22-53 | Fails with the class-count error and its distinct-value count iff the target has other than two distinct values. Otherwise it splits the rows of the prepared frame (features normalised, any feature named `target_binary` overwritten) together with the labels of the first-seen-to-0 map. |
| LogisticsRunner.SplitTableFeatures | logistics_runner.py:38-46 | With two classes the split succeeds. Every training and test feature cell is the rescaled value of its row and feature, except in a feature column named `target_binary`, which holds that row's 0/1 label. |
| LogisticsRunner.Runner.SplitData | logistics_runner.py:22-53 | The result is `SplitTable` of the cleaned table under the runner's seed, with the labels built by `Encode` and the `target_binary` assignment applied. `target_map` is set to the label map exactly when the class check passes, and is otherwise unchanged. |
| Classifier.CreateModel | logistics_runner.py:56-74 | Keras refuses the network exactly when the feature list is empty (`Concatenate` gets no inputs) or a feature is named `dense_layer` (two layers share that name); the error says which. Otherwise the model has one named input per feature, in order, and no input shares the dense layer's name. The inputs feed one sigmoid unit (features + 1 parameters), compiled with RMSprop at the given rate, binary cross-entropy and accuracy. |
| Classifier.TrainingShare | logistics_runner.py:94 | The training share of `validation_split=0.2` is floor(4n/5): five times it is at most 4n and 4n is below five times it plus five. |
| Classifier.HoldOutNeedsTwoSamples | logistics_runner.py:89-96 | Both the training share and the validation share are non-empty iff fit gets at least two samples. |
| LogisticsRunner.FeatureDict | logistics_runner.py:87-98 | Keys are exactly the feature names. Each entry is that feature's column, in the part's row order. |
| LogisticsRunner.ExperimentFailsBeforeModel | logistics_runner.py:77-85 | A run failing an input check makes no library call and stores no label map. It fails with the missing-values error iff the cleaned table has a null. Otherwise it fails with the class-count error iff the target lacks exactly two classes, reporting their count. The label map is stored iff both checks pass. |
| LogisticsRunner.ModelStageErrors | logistics_runner.py:85-96 | A refused network fails with that Keras error and no call. Otherwise the stage fails iff the training part has fewer than two rows, after building the model and calling fit, with the validation-split error. |
| LogisticsRunner.ExperimentModelErrors | logistics_runner.py:85-96 | Past the input checks, a refused network fails with that error and no call. Otherwise the run fails iff the table has exactly two rows: one row is left for training, and fit cannot hold out a validation share from it. |
| LogisticsRunner.ModelStageSucceeds | logistics_runner.py:85-111 | A successful stage has a buildable network and at least two training rows. It makes the build, fit and evaluate calls in order and reports that fit's history and that evaluation's accuracy. |
| LogisticsRunner.ExperimentSucceeds | logistics_runner.py:76-111 | A success has at least one feature, none named `dense_layer`, and at least three rows. It reports the runner's features and the stored label map. It builds one model over the features, with learning rate 0.001. It fits on the training part of the split, through that part's per-feature mapping and labels (batch 100, 60 epochs, validation split 0.2). It evaluates on the ceil(n/5) test rows the same way. The training part is non-empty and labels are 0/1. The history and accuracy come from that fit and that evaluation. |
| LogisticsRunner.Runner.RunExperiment | logistics_runner.py:76-111 | The result and the call sequence are those of `Experiment` on the runner's initial state. `data` ends cleaned. `target_map` is the label map the run stored, including when model building or fitting then fails, and is otherwise unchanged. |
| LogisticsRunner.NatToString | logistics_runner.py:34 | The count is printed as a non-empty string of decimal digits that denote it (`DigitsValue` reads it back), with no leading zero. |
| LogisticsRunner.ClassCountMessage | logistics_runner.py:33-34 | The class-count message names the target column after its fixed lead and ends with a full stop. The digits between the last space and that full stop read back as the reported count. |

## Left out

- `app.py`, `test_db.py` and the JavaScript under `static/` and `templates/` are not part of this model. They are Flask routes, database and mail I/O, and browser UI.
- The normalisation arithmetic (mean, sample standard deviation, division) is an opaque `Scale` parameter. It is floating point, and a constant column yields NaN or infinity.
- Keras training and evaluation internals, the loss and accuracy values, and the `validation_split` sampling inside `model.fit` are left out. They happen inside the library and are function parameters here. `verbose=0` has no modelled effect.
- The random shuffle of `train_test_split` is a permutation parameter, computed from `random_state` and the row count.
- pandas dtype inference is an input: the `numeric` flag of each column.
- The test size is ceil(n/5). sklearn computes `ceil(0.2 * n)` in floating point. The two are taken to agree; float rounding is not modelled.
- Column names are distinct, as in a table read by `read_csv`. `WellFormed` requires it.
- LogisticsRunner.Runner.SplitData: requires its argument to be what `preprocess_data` produced, namely features followed by the target with no missing cell. That is the only way `run_experiment` calls it. On any other frame, `split_data` behaves in ways this model does not describe.
- LogisticsRunner.Runner.constructor: requires at least one column. `Runner.New` models the IndexError raised on a table without columns.
- Keras raises three errors in this core: `Concatenate` with no inputs, a duplicated layer name, and a `validation_split` that leaves an empty share. The model names them `ModelRejected(NoInputs)`, `ModelRejected(DuplicateLayerName(..))` and `ValidationSplitTooSmall(..)`. Their message texts are those of the Keras version at hand; `Message` gives representative wordings.
- Classifier.CreateModel: only the two refusals above are modelled. Other name checks Keras may make are not: a name it rejects outright, such as one containing `/` in Keras 3, or a feature named like a layer Keras names itself, such as `concatenate`.
- The `target_binary` column that `split_data` assigns on its local copy is modelled by `AssignTargetBinary` on the prepared rows. When no column has that name, pandas appends one; the model keeps that column only as the label sequence, which is the only way the method reads it.
- Classifier.TrainingShare: Keras computes `floor(n * 0.8)` in floating point; the model takes it as 4n/5. Float rounding is not modelled.
- sklearn's "train set would be empty" error cannot arise. Two distinct target values need at least two rows, and ceil(n/5) < n for n >= 2; `SplitPartitionsRows` proves this.
