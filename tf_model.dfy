/**
 * tf_model.py: the feature list the networks read, the batches one pass of
 * `batch_generator` yields, the boost weights of the inference training and
 * the steps at which the training loops log and save.
 */
module TfModel {
  import opened Names
  import opened Frames
  import Flatten
  import CreateTrainingSamples

  // ---------------------------------------------------------------------
  // variables
  // ---------------------------------------------------------------------

  /** The feature list: jet scalars, 52 slots per track variable, 67 per tower variable. */
  const Variables: seq<string> := ColumnNames(MaxTracks, MaxTowers)

  /**
   * `for v in cs: for i in range(width): variables += [v + '_' + str(i)]`:
   * appends the slot names of every variable of `cs`, variable by variable.
   */
  method AppendSlots(variables: seq<string>, cs: seq<string>, width: nat) returns (r: seq<string>)
    ensures r == variables + SlotList(cs, width)
  {
    r := variables;
    var j := 0;
    while j < |cs|
      invariant 0 <= j <= |cs|
      invariant r == variables + SlotList(cs[..j], width)
    {
      ghost var done := cs[..j];
      r := AppendVariableSlots(r, cs[j], width);
      SlotListSnoc(done, cs[j], width);
      assert cs[..j + 1] == done + [cs[j]];
      assert r == variables + (SlotList(done, width) + Slots(cs[j], width));
      j := j + 1;
    }
    assert cs[..j] == cs;
  }

  /** The inner loop, `for i in range(width)`: appends `v_0 .. v_{width-1}`. */
  method AppendVariableSlots(variables: seq<string>, v: string, width: nat) returns (r: seq<string>)
    ensures r == variables + Slots(v, width)
  {
    r := variables;
    var i := 0;
    while i < width
      invariant 0 <= i <= width
      invariant r == variables + Slots(v, i)
    {
      assert Slots(v, i + 1) == Slots(v, i) + [Suffixed(v, i)];
      r := r + [v + "_" + Digits(i)];
      i := i + 1;
    }
  }

  /** The module-level loops that build `variables`: the jet scalars, then the track slots, then the tower slots. */
  method BuildVariables() returns (variables: seq<string>)
    ensures variables == Variables
  {
    variables := JetVariables;
    variables := AppendSlots(variables, TrackVariables, MaxTracks);
    variables := AppendSlots(variables, TowerVariables, MaxTowers);
  }

  /** 6 + 4 * 52 + 5 * 67 = 549 features, no name twice. */
  lemma VariablesFacts()
    ensures |Variables| == 549
    ensures Distinct(Variables)
    ensures forall k :: 0 <= k < |JetVariables| ==> Variables[k] == JetVariables[k]
  {
    ColumnNamesLength(MaxTracks, MaxTowers);
    ColumnNamesDistinct(MaxTracks, MaxTowers);
  }

  /** Where slot `i` of a track or tower variable sits in the feature list. */
  lemma VariablesIndex(m: nat, i: nat)
    ensures m < |TrackVariables| && i < MaxTracks ==>
      |JetVariables| + m * MaxTracks + i < |Variables| &&
      Variables[|JetVariables| + m * MaxTracks + i] == Suffixed(TrackVariables[m], i)
    ensures m < |TowerVariables| && i < MaxTowers ==>
      |JetVariables| + |TrackVariables| * MaxTracks + m * MaxTowers + i < |Variables| &&
      Variables[|JetVariables| + |TrackVariables| * MaxTracks + m * MaxTowers + i] == Suffixed(TowerVariables[m], i)
  {
    if m < |TrackVariables| && i < MaxTracks {
      TrackColumn(MaxTracks, MaxTowers, m, i);
    }
    if m < |TowerVariables| && i < MaxTowers {
      TowerColumn(MaxTracks, MaxTowers, m, i);
    }
  }

  /**
   * The feature names are the columns flattening writes, next to the jet
   * scalars: a table whose only columns besides the nine arrays are the
   * jet scalars flattens to exactly the feature names.
   */
  lemma VariablesAreFlattenedColumns(before: set<string>)
    ensures Elements(JetVariables) <= before ==> Elements(Variables) <= Flatten.FlatNames(before)
    ensures before - Elements(Flatten.ArrayColumns) == Elements(JetVariables) ==> Flatten.FlatNames(before) == Elements(Variables)
  {
    ColumnNamesElements(MaxTracks, MaxTowers);
    JetsNotArrays();
    KeptBesideRemoved(before, Elements(JetVariables), Elements(Flatten.ArrayColumns));
  }

  /** No jet scalar is one of the nine array columns. */
  lemma JetsNotArrays()
    ensures Elements(JetVariables) !! Elements(Flatten.ArrayColumns)
  {
    ElementsAppend(TrackVariables, TowerVariables);
    forall c | c in JetVariables ensures c !in TrackVariables && c !in TowerVariables {
    }
  }

  /** Names disjoint from the removed ones survive the removal. */
  lemma KeptBesideRemoved(before: set<string>, kept: set<string>, removed: set<string>)
    requires kept !! removed
    ensures kept <= before ==> kept <= before - removed
  {
  }

  /** The same for the table of a flattened pickle. */
  lemma FlattenedHasVariables(t: Table)
    requires Flatten.IsInput(t) && Flatten.Flattenable(t)
    ensures Elements(JetVariables) <= t.cols.Keys ==> Elements(Variables) <= Flatten.Flattened(t).cols.Keys
    ensures t.cols.Keys - Elements(Flatten.ArrayColumns) == Elements(JetVariables) ==> Flatten.Flattened(t).cols.Keys == Elements(Variables)
  {
    Flatten.FlattenedKeys(t);
    VariablesAreFlattenedColumns(t.cols.Keys);
  }

  // ---------------------------------------------------------------------
  // batch_generator: one pass over the shuffled table
  // ---------------------------------------------------------------------

  /** Python's `range(start, stop, step)` for a positive `step`. */
  function Range(start: int, stop: int, step: nat): (r: seq<int>)
    requires step > 0
    ensures forall j :: 0 <= j < |r| ==> r[j] == start + j * step && start <= r[j] < stop
    ensures |r| == 0 <==> stop <= start
    decreases stop - start
  {
    if stop <= start then []
    else
      var rest := Range(start + step, stop, step);
      assert forall j :: 1 <= j < |rest| + 1 ==> rest[j - 1] == start + j * step by {
        forall j | 1 <= j < |rest| + 1 ensures rest[j - 1] == start + j * step {
          assert start + step + (j - 1) * step == start + j * step;
        }
      }
      [start] + rest
  }

  /** `range` leaves out no multiple of the step below the bound. */
  lemma {:induction false} RangeComplete(start: int, stop: int, step: nat, k: nat)
    requires step > 0 && start + k * step < stop
    ensures k < |Range(start, stop, step)|
    decreases k
  {
    if k > 0 {
      assert start + step + (k - 1) * step == start + k * step;
      RangeComplete(start + step, stop, step, k - 1);
    }
  }

  /** The first rows of the batches of one pass: `range(0, len(df) - batch_size - 1, batch_size)`. */
  function BatchStarts(n: nat, batchSize: nat): seq<int>
    requires batchSize > 0
  {
    Range(0, n - batchSize - 1, batchSize)
  }

  /**
   * Batch `j` of a pass over `n` rows starts at row `j * batchSize`; each
   * batch starts where the one before it ends, and ends before row `n - 2`.
   */
  lemma BatchPositions(n: nat, batchSize: nat)
    requires batchSize > 0
    ensures forall j :: 0 <= j < |BatchStarts(n, batchSize)| ==>
      BatchStarts(n, batchSize)[j] == j * batchSize && j * batchSize + batchSize - 1 < n - 2
    ensures forall j :: 0 <= j < |BatchStarts(n, batchSize)| - 1 ==>
      BatchStarts(n, batchSize)[j + 1] == BatchStarts(n, batchSize)[j] + batchSize
  {
    var s := BatchStarts(n, batchSize);
    forall j | 0 <= j < |s| ensures s[j] == j * batchSize && j * batchSize + batchSize - 1 < n - 2 {
      assert s[j] < n - batchSize - 1;
    }
    forall j | 0 <= j < |s| - 1 ensures s[j + 1] == s[j] + batchSize {
      assert (j + 1) * batchSize == j * batchSize + batchSize;
    }
  }

  /**
   * A pass has as many batches as fit: with `n <= batchSize + 1` rows there
   * is none; otherwise between 2 and `batchSize + 1` rows are never read.
   */
  lemma BatchCount(n: nat, batchSize: nat)
    requires batchSize > 0
    ensures forall k: nat :: k * batchSize < n - batchSize - 1 ==> k < |BatchStarts(n, batchSize)|
    ensures |BatchStarts(n, batchSize)| == 0 <==> n <= batchSize + 1
    ensures n > batchSize + 1 ==> 2 <= n - |BatchStarts(n, batchSize)| * batchSize <= batchSize + 1
  {
    var s := BatchStarts(n, batchSize);
    forall k: nat | k * batchSize < n - batchSize - 1 ensures k < |s| {
      RangeComplete(0, n - batchSize - 1, batchSize, k);
    }
    if n > batchSize + 1 {
      var last := |s| - 1;
      assert s[last] == last * batchSize < n - batchSize - 1;
      assert |s| * batchSize == last * batchSize + batchSize;
    }
  }

  /** A pair of arrays the generator yields: `x` is batch x features, `y` is batch x 1. */
  datatype Batch = Batch(x: seq<seq<real>>, y: seq<seq<real>>)

  /** `np.require(..., dtype=np.float32)` of a boolean label. */
  function Label(b: bool): (v: real)
    ensures v == 1.0 || v == 0.0
    ensures v == 1.0 <==> b
  {
    if b then 1.0 else 0.0
  }

  /** The table holds every feature as a real column and the target as a boolean column. */
  ghost predicate Readable(t: Table, features: seq<string>, target: string)
  {
    WellFormed(t) &&
    (forall c :: c in features ==> c in t.cols && t.cols[c].Reals?) &&
    target in t.cols && t.cols[target].Flags?
  }

  /**
   * `df.loc[pos:pos + batch_size - 1, features]` and the target column
   * reshaped to one label per row: both label bounds are inclusive, so the
   * batch holds `batch_size` rows.
   */
  function MakeBatch(t: Table, features: seq<string>, target: string, pos: nat, batchSize: nat): (b: Batch)
    requires Readable(t, features, target) && pos + batchSize <= t.nrows
    ensures |b.x| == batchSize && |b.y| == batchSize
    ensures forall r :: 0 <= r < batchSize ==> |b.x[r]| == |features| && |b.y[r]| == 1
  {
    Batch(
      seq(batchSize, r requires 0 <= r < batchSize =>
        seq(|features|, c requires 0 <= c < |features| => t.cols[features[c]].xs[pos + r])),
      seq(batchSize, r requires 0 <= r < batchSize => [Label(t.cols[target].bs[pos + r])]))
  }

  /**
   * One pass of the `for pos in range(...)` loop of `batch_generator` over
   * the table as shuffled: batch `j` holds rows `j * batchSize` to
   * `j * batchSize + batchSize - 1`, all before the last two rows.
   */
  method Epoch(t: Table, features: seq<string>, target: string, batchSize: nat) returns (batches: seq<Batch>)
    requires Readable(t, features, target) && batchSize > 0
    ensures |batches| == |BatchStarts(t.nrows, batchSize)|
    ensures forall j :: 0 <= j < |batches| ==> j * batchSize + batchSize + 1 < t.nrows
    ensures forall j :: 0 <= j < |batches| ==> batches[j] == MakeBatch(t, features, target, j * batchSize, batchSize)
  {
    var starts := BatchStarts(t.nrows, batchSize);
    BatchPositions(t.nrows, batchSize);
    batches := [];
    for j := 0 to |starts|
      invariant |batches| == j
      invariant forall k :: 0 <= k < j ==> batches[k] == MakeBatch(t, features, target, starts[k], batchSize)
    {
      var pos := starts[j];
      var x := MakeBatch(t, features, target, pos, batchSize);
      batches := batches + [x];
    }
  }

  /** Entry `(r, c)` of batch `j` is feature `c` of row `j * batchSize + r`, and its label is that row's target. */
  lemma EpochEntries(t: Table, features: seq<string>, target: string, batchSize: nat, j: nat, r: nat, c: nat)
    requires Readable(t, features, target) && batchSize > 0
    requires j < |BatchStarts(t.nrows, batchSize)| && r < batchSize && c < |features|
    ensures j * batchSize + batchSize - 1 < t.nrows - 2
    ensures var b := MakeBatch(t, features, target, j * batchSize, batchSize);
      b.x[r][c] == t.cols[features[c]].xs[j * batchSize + r] &&
      b.y[r] == [Label(t.cols[target].bs[j * batchSize + r])]
  {
    BatchPositions(t.nrows, batchSize);
  }

  /** The batch size both generators of the script are created with. */
  const BatchSize: nat := 100

  /**
   * `batch_generator('boost_training_sample.pickle', 'is_data', 100)`, one
   * pass over the boost sample: batches of 100 consecutive rows labelled by
   * `is_data`, none when the sample has at most 101 rows, and otherwise
   * between 2 and 101 final rows never read.
   */
  method BoostBatches(t: Table) returns (batches: seq<Batch>)
    requires Readable(t, Variables, CreateTrainingSamples.IsData)
    ensures |batches| == |BatchStarts(t.nrows, BatchSize)|
    ensures |batches| == 0 <==> t.nrows <= BatchSize + 1
    ensures t.nrows > BatchSize + 1 ==> 2 <= t.nrows - |batches| * BatchSize <= BatchSize + 1
    ensures forall j :: 0 <= j < |batches| ==> |batches[j].x| == BatchSize && |batches[j].y| == BatchSize
    ensures forall j, r :: 0 <= j < |batches| && 0 <= r < BatchSize ==> |batches[j].x[r]| == |Variables|
    ensures forall j, r, c :: 0 <= j < |batches| && 0 <= r < BatchSize && 0 <= c < |Variables| ==>
      batches[j].x[r][c] == t.cols[Variables[c]].xs[j * BatchSize + r]
    ensures forall j, r :: 0 <= j < |batches| && 0 <= r < BatchSize ==>
      batches[j].y[r] == [Label(t.cols[CreateTrainingSamples.IsData].bs[j * BatchSize + r])]
  {
    batches := Epoch(t, Variables, CreateTrainingSamples.IsData, BatchSize);
    BatchCount(t.nrows, BatchSize);
    BatchPositions(t.nrows, BatchSize);
  }

  /**
   * `batch_generator('inference_training_sample.pickle', 'is_quark', 100)`,
   * one pass over the inference sample, batched as the boost sample is and
   * labelled by `is_quark`.
   */
  method InferenceBatches(t: Table) returns (batches: seq<Batch>)
    requires Readable(t, Variables, CreateTrainingSamples.IsQuark)
    ensures |batches| == |BatchStarts(t.nrows, BatchSize)|
    ensures |batches| == 0 <==> t.nrows <= BatchSize + 1
    ensures t.nrows > BatchSize + 1 ==> 2 <= t.nrows - |batches| * BatchSize <= BatchSize + 1
    ensures forall j :: 0 <= j < |batches| ==> |batches[j].x| == BatchSize && |batches[j].y| == BatchSize
    ensures forall j, r :: 0 <= j < |batches| && 0 <= r < BatchSize ==> |batches[j].x[r]| == |Variables|
    ensures forall j, r, c :: 0 <= j < |batches| && 0 <= r < BatchSize && 0 <= c < |Variables| ==>
      batches[j].x[r][c] == t.cols[Variables[c]].xs[j * BatchSize + r]
    ensures forall j, r :: 0 <= j < |batches| && 0 <= r < BatchSize ==>
      batches[j].y[r] == [Label(t.cols[CreateTrainingSamples.IsQuark].bs[j * BatchSize + r])]
  {
    batches := Epoch(t, Variables, CreateTrainingSamples.IsQuark, BatchSize);
    BatchCount(t.nrows, BatchSize);
    BatchPositions(t.nrows, BatchSize);
  }

  // ---------------------------------------------------------------------
  // Weights of the inference training
  // ---------------------------------------------------------------------

  const Epsilon: real := 0.00001

  /**
   * `(p + epsilon) / (1 - p + epsilon)`: the odds the boost network gives an
   * event of looking like data, kept finite at `p = 1`.
   */
  function BoostWeight(p: real): (w: real)
    requires 0.0 <= p <= 1.0
    ensures w > 0.0
    ensures w * (1.0 - p + Epsilon) == p + Epsilon
  {
    var d := 1.0 - p + Epsilon;
    QuotientSign(p + Epsilon, d);
    (p + Epsilon) / d
  }

  /** A positive quotient of a positive dividend, undone by multiplying back. */
  lemma QuotientSign(a: real, d: real)
    requires a > 0.0 && d > 0.0
    ensures a / d > 0.0 && (a / d) * d == a
  {
  }

  /** An undecided network leaves the event weight at 1; more confidence raises it above 1. */
  lemma BoostWeightOdds(p: real)
    requires 0.0 <= p <= 1.0
    ensures BoostWeight(p) == 1.0 <==> p == 0.5
    ensures BoostWeight(p) > 1.0 <==> p > 0.5
  {
    var w, d := BoostWeight(p), 1.0 - p + Epsilon;
    assert w * d == p + Epsilon;
    if w > 1.0 {
      assert w * d > d;
    } else {
      assert w * d <= d;
    }
    if w < 1.0 {
      assert w * d < d;
    }
  }

  /** Swapping the two outcomes inverts the weight. */
  lemma BoostWeightInverse(p: real)
    requires 0.0 <= p <= 1.0
    ensures BoostWeight(p) * BoostWeight(1.0 - p) == 1.0
  {
    var w, v := BoostWeight(p), BoostWeight(1.0 - p);
    var a, b := p + Epsilon, 1.0 - p + Epsilon;
    assert w * b == a && v * a == b;
    assert (w * v) * (a * b) == (w * b) * (v * a);
    assert a * b > 0.0;
  }

  /** A higher probability gives a higher weight. */
  lemma BoostWeightMonotone(p: real, q: real)
    requires 0.0 <= p < q <= 1.0
    ensures BoostWeight(p) < BoostWeight(q)
  {
    var a, b := 1.0 - p + Epsilon, 1.0 - q + Epsilon;
    DivideLess(p + Epsilon, q + Epsilon, a);
    DivideByLess(q + Epsilon, b, a);
  }

  lemma DivideLess(x: real, y: real, d: real)
    requires x < y && d > 0.0
    ensures x / d < y / d
  {
    assert x / d * d == x && y / d * d == y;
  }

  lemma DivideByLess(x: real, b: real, a: real)
    requires x > 0.0 && 0.0 < b < a
    ensures x / a < x / b
  {
    assert x / a * a == x && x / b * b == x;
    assert x / a * b < x / a * a;
  }

  /**
   * The weights of one batch: the boost weights of the boost network's
   * outputs, or `np.ones(len(batch_ys))` without boost.
   */
  function BatchWeights(useBoost: bool, ps: seq<real>, batchSize: nat): (ws: seq<real>)
    requires useBoost ==> |ps| == batchSize && forall k :: 0 <= k < |ps| ==> 0.0 <= ps[k] <= 1.0
    ensures |ws| == batchSize
    ensures forall k :: 0 <= k < batchSize ==> ws[k] > 0.0
    ensures forall k :: 0 <= k < batchSize ==> ws[k] == if useBoost then BoostWeight(ps[k]) else 1.0
  {
    if useBoost then seq(batchSize, k requires 0 <= k < batchSize => BoostWeight(ps[k]))
    else seq(batchSize, _ => 1.0)
  }

  // ---------------------------------------------------------------------
  // Training loops: when they log and when they save
  // ---------------------------------------------------------------------

  const Iterations: nat := 100000
  const LogEvery: nat := 500
  const SaveEvery: nat := 10000

  predicate Logs(step: nat)
  {
    step % LogEvery == 0
  }

  /** `(step + 1) % 10000 == 0 or (step + 1) == n_iterations`. */
  predicate Saves(step: nat, nIterations: int)
  {
    (step + 1) % SaveEvery == 0 || step + 1 == nIterations
  }

  /** The steps below `steps` that print the loss, in order. */
  function Logged(steps: nat): seq<nat>
  {
    if steps == 0 then [] else Logged(steps - 1) + (if Logs(steps - 1) then [steps - 1] else [])
  }

  /** The steps below `steps` that save a checkpoint, in order, for the loop's `n_iterations`. */
  function Saved(steps: nat, nIterations: int): seq<nat>
  {
    if steps == 0 then [] else Saved(steps - 1, nIterations) + (if Saves(steps - 1, nIterations) then [steps - 1] else [])
  }

  /**
   * `for step in range(steps)`: one training step each, then the log and
   * save tests. The training step itself runs in TensorFlow.
   */
  method TrainingLoop(steps: nat, nIterations: int) returns (logged: seq<nat>, saved: seq<nat>)
    ensures logged == Logged(steps) && saved == Saved(steps, nIterations)
  {
    logged, saved := [], [];
    for step := 0 to steps
      invariant logged == Logged(step) && saved == Saved(step, nIterations)
    {
      if step % LogEvery == 0 {
        logged := logged + [step];
      }
      if (step + 1) % SaveEvery == 0 || step + 1 == nIterations {
        saved := saved + [step];
      }
    }
  }

  /** A step is logged exactly when it is a multiple of 500; the list is increasing. */
  lemma {:induction false} LoggedSteps(steps: nat)
    ensures forall s: nat :: s in Logged(steps) <==> s < steps && Logs(s)
    ensures forall i, j :: 0 <= i < j < |Logged(steps)| ==> Logged(steps)[i] < Logged(steps)[j]
  {
    if steps > 0 {
      LoggedSteps(steps - 1);
      AppendGreater(Logged(steps - 1), steps - 1, Logs(steps - 1), Logged(steps));
    }
  }

  /** Appending a step above every listed one keeps the list increasing and adds just that step. */
  lemma AppendGreater(prev: seq<nat>, n: nat, add: bool, r: seq<nat>)
    requires forall s: nat :: s in prev ==> s < n
    requires forall i, j :: 0 <= i < j < |prev| ==> prev[i] < prev[j]
    requires r == prev + (if add then [n] else [])
    ensures forall s: nat :: s in r <==> s in prev || (add && s == n)
    ensures forall i, j :: 0 <= i < j < |r| ==> r[i] < r[j]
  {
    assert forall i :: 0 <= i < |prev| ==> prev[i] in prev;
  }

  /** A step is saved exactly when the save test holds for it; the list is increasing. */
  lemma {:induction false} SavedSteps(steps: nat, nIterations: int)
    ensures forall s: nat :: s in Saved(steps, nIterations) <==> s < steps && Saves(s, nIterations)
    ensures forall i, j :: 0 <= i < j < |Saved(steps, nIterations)| ==> Saved(steps, nIterations)[i] < Saved(steps, nIterations)[j]
  {
    if steps > 0 {
      SavedSteps(steps - 1, nIterations);
      AppendGreater(Saved(steps - 1, nIterations), steps - 1, Saves(steps - 1, nIterations), Saved(steps, nIterations));
    }
  }

  /** `fewer` more steps without a save add nothing to the list. */
  lemma {:induction false} NoSaveBetween(start: nat, fewer: nat, nIterations: int)
    requires forall s: nat :: start <= s < start + fewer ==> !Saves(s, nIterations)
    ensures Saved(start + fewer, nIterations) == Saved(start, nIterations)
  {
    if fewer > 0 {
      NoSaveBetween(start, fewer - 1, nIterations);
    }
  }

  /**
   * A loop over a whole number of save periods, `steps <= n_iterations`,
   * saves once per period: after steps 9999, 19999, ...
   */
  lemma {:induction false} SavedCount(periods: nat, nIterations: int)
    requires periods * SaveEvery <= nIterations
    ensures |Saved(periods * SaveEvery, nIterations)| == periods
    ensures periods > 0 ==> Saved(periods * SaveEvery, nIterations)[periods - 1] == periods * SaveEvery - 1
  {
    if periods > 0 {
      var start := (periods - 1) * SaveEvery;
      SavedCount(periods - 1, nIterations);
      forall s: nat | start <= s < start + SaveEvery - 1 ensures !Saves(s, nIterations) {
        assert (s + 1) % SaveEvery != 0 by {
          assert s + 1 == (periods - 1) * SaveEvery + (s + 1 - start);
        }
      }
      NoSaveBetween(start, SaveEvery - 1, nIterations);
      assert (start + SaveEvery) % SaveEvery == 0;
    }
  }

  /** One log line per started period of 500 steps. */
  lemma {:induction false} LoggedCount(steps: nat)
    ensures |Logged(steps)| == (steps + LogEvery - 1) / LogEvery
  {
    if steps > 0 {
      LoggedCount(steps - 1);
    }
  }

  /** The training loops of the script: 200 log lines and 10 checkpoints each, the last after the final step. */
  lemma TrainingSchedule()
    ensures |Logged(Iterations)| == 200
    ensures |Saved(Iterations, Iterations)| == 10
    ensures Saved(Iterations, Iterations)[9] == Iterations - 1
  {
    LoggedCount(Iterations);
    SavedCount(10, Iterations);
  }
}
