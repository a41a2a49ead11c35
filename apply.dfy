/**
 * apply.py: a trained network is applied to the inference training and test
 * samples in chunks of 100000 rows, and the labels are saved next to the
 * predictions.
 *
 * The network is a parameter: `run(X)` stands for
 * `session.run(p, feed_dict={x: X})`, one row of outputs per row of `X`.
 */
module Apply {
  import opened Frames
  import opened TfModel
  import CreateTrainingSamples

  const ChunkSize: nat := 100000

  /** A row of network outputs; the network has at least one output. */
  type Output = r: seq<real> | |r| > 0 witness [0.0]

  /** The network gives one row of outputs per input row. */
  ghost predicate Shaped(run: seq<seq<real>> -> seq<Output>)
  {
    forall xs :: |run(xs)| == |xs|
  }

  /** `apply(X, session, x, p)`: the first output of each row, `result[:, 0]`. */
  function ApplyNet(xs: seq<seq<real>>, run: seq<seq<real>> -> seq<Output>): (p: seq<real>)
    requires Shaped(run)
    ensures |p| == |xs|
  {
    seq(|xs|, k requires 0 <= k < |xs| => run(xs)[k][0])
  }

  // ---------------------------------------------------------------------
  // The chunks
  // ---------------------------------------------------------------------

  /** The values of `i` in `for i in range(0, n, 100000)`. */
  function ChunkStarts(n: nat): seq<int>
  {
    Range(0, n, ChunkSize)
  }

  /** `e = min(n, i + 100000)`. */
  function ChunkEnd(i: int, n: nat): int
  {
    if n < i + ChunkSize then n else i + ChunkSize
  }

  /**
   * The chunks `[i, e)` partition `[0, n)`: chunk `j` starts at
   * `j * 100000`, is non-empty and has at most 100000 rows; every chunk but
   * the last has exactly 100000 rows and ends where the next one starts; the
   * last one ends at `n`. There is no chunk when `n == 0`.
   */
  lemma ChunksPartition(n: nat)
    ensures |ChunkStarts(n)| == 0 <==> n == 0
    ensures forall j :: 0 <= j < |ChunkStarts(n)| ==>
      ChunkStarts(n)[j] == j * ChunkSize && j * ChunkSize < ChunkEnd(j * ChunkSize, n) <= j * ChunkSize + ChunkSize
    ensures forall j :: 0 <= j < |ChunkStarts(n)| - 1 ==>
      ChunkEnd(ChunkStarts(n)[j], n) == ChunkStarts(n)[j + 1] == j * ChunkSize + ChunkSize
    ensures n > 0 ==> ChunkEnd(ChunkStarts(n)[|ChunkStarts(n)| - 1], n) == n
  {
    var s := ChunkStarts(n);
    forall j | 0 <= j < |s|
      ensures s[j] == j * ChunkSize && j * ChunkSize < ChunkEnd(j * ChunkSize, n) <= j * ChunkSize + ChunkSize
    {
      assert s[j] == 0 + j * ChunkSize < n;
    }
    forall j | 0 <= j < |s| - 1
      ensures ChunkEnd(s[j], n) == s[j + 1] == j * ChunkSize + ChunkSize
    {
      assert s[j + 1] == (j + 1) * ChunkSize == j * ChunkSize + ChunkSize;
    }
    if n > 0 {
      var last := |s| - 1;
      if last * ChunkSize + ChunkSize < n {
        RangeComplete(0, n, ChunkSize, last + 1);
      }
    }
  }

  /** Chunk `j` is non-empty and ends where chunk `j + 1` starts, or at `n` if it is the last. */
  lemma ChunkBounds(n: nat, j: nat)
    requires j < |ChunkStarts(n)|
    ensures ChunkStarts(n)[j] < ChunkEnd(ChunkStarts(n)[j], n) <= n
    ensures j + 1 < |ChunkStarts(n)| ==> ChunkEnd(ChunkStarts(n)[j], n) == ChunkStarts(n)[j + 1]
    ensures j + 1 == |ChunkStarts(n)| ==> ChunkEnd(ChunkStarts(n)[j], n) == n
    ensures ChunkStarts(n)[j] == 0 <==> j == 0
  {
    ChunksPartition(n);
  }

  /** Row `k < n` lies in chunk `k / 100000`, and in no other. */
  lemma ChunkOfRow(n: nat, k: nat)
    requires k < n
    ensures k / ChunkSize < |ChunkStarts(n)|
    ensures ChunkStarts(n)[k / ChunkSize] <= k < ChunkEnd(ChunkStarts(n)[k / ChunkSize], n)
    ensures forall j :: 0 <= j < |ChunkStarts(n)| && ChunkStarts(n)[j] <= k < ChunkEnd(ChunkStarts(n)[j], n) ==> j == k / ChunkSize
  {
    RangeComplete(0, n, ChunkSize, k / ChunkSize);
    ChunksPartition(n);
  }

  // ---------------------------------------------------------------------
  // The prediction loop
  // ---------------------------------------------------------------------

  /** The prediction for row `k`: what the network gives it within the chunk `[i, e)` that holds it. */
  function ChunkedPrediction(x: seq<seq<real>>, run: seq<seq<real>> -> seq<Output>): (p: seq<real>)
    requires Shaped(run)
    ensures |p| == |x|
  {
    seq(|x|, k requires 0 <= k < |x| =>
      var i := k / ChunkSize * ChunkSize;
      ApplyNet(x[i..ChunkEnd(i, |x|)], run)[k - i])
  }

  /** Row `k` is predicted within the chunk of the partition that holds it. */
  lemma PredictionOfRow(x: seq<seq<real>>, run: seq<seq<real>> -> seq<Output>, k: nat)
    requires Shaped(run) && k < |x|
    ensures var j := k / ChunkSize;
      j < |ChunkStarts(|x|)| &&
      0 <= ChunkStarts(|x|)[j] <= k < ChunkEnd(ChunkStarts(|x|)[j], |x|) <= |x| &&
      ChunkedPrediction(x, run)[k] ==
        ApplyNet(x[ChunkStarts(|x|)[j]..ChunkEnd(ChunkStarts(|x|)[j], |x|)], run)[k - ChunkStarts(|x|)[j]]
  {
    ChunkOfRow(|x|, k);
    ChunksPartition(|x|);
  }

  /** The rows of chunk `j`, `[i, e)`, are predicted from that chunk. */
  lemma ChunkRows(x: seq<seq<real>>, run: seq<seq<real>> -> seq<Output>, j: nat, i: nat, e: nat)
    requires Shaped(run) && i == j * ChunkSize && i < |x| && e == ChunkEnd(i, |x|)
    ensures i < e <= |x| && ApplyNet(x[i..e], run) == ChunkedPrediction(x, run)[i..e]
  {
    forall k | i <= k < e
      ensures ChunkedPrediction(x, run)[k] == ApplyNet(x[i..e], run)[k - i]
    {
      assert k / ChunkSize == j;
    }
  }

  /**
   * A network that computes each output row from its input row alone gives
   * every row the same prediction as it would unchunked.
   */
  lemma RowWise(x: seq<seq<real>>, run: seq<seq<real>> -> seq<Output>, f: seq<real> -> real)
    requires Shaped(run)
    requires forall xs, k :: 0 <= k < |xs| ==> run(xs)[k][0] == f(xs[k])
    ensures forall k :: 0 <= k < |x| ==> ChunkedPrediction(x, run)[k] == f(x[k]) == ApplyNet(x, run)[k]
  {
    forall k | 0 <= k < |x| ensures ChunkedPrediction(x, run)[k] == f(x[k]) {
      var i := k / ChunkSize * ChunkSize;
      var chunk := x[i..ChunkEnd(i, |x|)];
      assert chunk[k - i] == x[k];
      assert run(chunk)[k - i][0] == f(chunk[k - i]);
    }
  }

  /** Writes `chunk` into `a[i..i + |chunk|]`, leaving the other slots alone. */
  method WriteChunk(a: array<real>, i: nat, chunk: seq<real>)
    requires i + |chunk| <= a.Length
    modifies a
    ensures a[..i + |chunk|] == old(a[..i]) + chunk
    ensures forall k :: 0 <= k < a.Length ==> a[k] == if i <= k < i + |chunk| then chunk[k - i] else old(a[k])
  {
    forall k | i <= k < i + |chunk| {
      a[k] := chunk[k - i];
    }
    assert a[..i + |chunk|] == old(a[..i]) + chunk;
  }

  /** The predictions of the first `j` chunks, one after the other. */
  function FirstChunks(x: seq<seq<real>>, run: seq<seq<real>> -> seq<Output>, j: nat): (p: seq<real>)
    requires Shaped(run) && j <= |ChunkStarts(|x|)|
  {
    if j == 0 then []
    else
      var i := ChunkStarts(|x|)[j - 1];
      FirstChunks(x, run, j - 1) + ApplyNet(x[i..ChunkEnd(i, |x|)], run)
  }

  /**
   * Chunk after chunk, the loop makes the row-by-row prediction: the first
   * `j` chunks predict the rows before the end of chunk `j - 1`.
   */
  lemma {:induction false} FirstChunksPrediction(x: seq<seq<real>>, run: seq<seq<real>> -> seq<Output>, j: nat)
    requires Shaped(run) && j <= |ChunkStarts(|x|)|
    ensures j < |ChunkStarts(|x|)| ==>
      ChunkStarts(|x|)[j] == j * ChunkSize < |x| && FirstChunks(x, run, j) == ChunkedPrediction(x, run)[..j * ChunkSize]
    ensures j == |ChunkStarts(|x|)| ==> FirstChunks(x, run, j) == ChunkedPrediction(x, run)
  {
    if j > 0 {
      FirstChunksPrediction(x, run, j - 1);
      FirstChunksStep(x, run, j);
    } else {
      ChunksPartition(|x|);
    }
  }

  /** One more chunk extends the prediction of the rows before its start to the rows before its end. */
  lemma FirstChunksStep(x: seq<seq<real>>, run: seq<seq<real>> -> seq<Output>, j: nat)
    requires Shaped(run) && 0 < j <= |ChunkStarts(|x|)| && (j - 1) * ChunkSize < |x|
    requires FirstChunks(x, run, j - 1) == ChunkedPrediction(x, run)[..(j - 1) * ChunkSize]
    ensures j < |ChunkStarts(|x|)| ==>
      ChunkStarts(|x|)[j] == j * ChunkSize < |x| && FirstChunks(x, run, j) == ChunkedPrediction(x, run)[..j * ChunkSize]
    ensures j == |ChunkStarts(|x|)| ==> FirstChunks(x, run, j) == ChunkedPrediction(x, run)
  {
    ChunksPartition(|x|);
    var spec := ChunkedPrediction(x, run);
    var i := ChunkStarts(|x|)[j - 1];
    var e := ChunkEnd(i, |x|);
    ChunkRows(x, run, j - 1, i, e);
    Prefixes(spec, i, e);
    assert FirstChunks(x, run, j) == spec[..e];
  }

  /** The first chunk predicts the rows `[0, min(n, 100000))`. */
  lemma FirstChunkPrediction(x: seq<seq<real>>, run: seq<seq<real>> -> seq<Output>)
    requires Shaped(run) && 0 < |x|
    ensures 0 < |ChunkStarts(|x|)| && ChunkEnd(0, |x|) <= |x|
    ensures FirstChunks(x, run, 1) == ChunkedPrediction(x, run)[..ChunkEnd(0, |x|)]
  {
    ChunksPartition(|x|);
    FirstChunksPrediction(x, run, 1);
    if 1 == |ChunkStarts(|x|)| {
      assert ChunkEnd(0, |x|) == |x|;
    }
  }

  /** A prefix followed by the next slice is the longer prefix. */
  lemma Prefixes(s: seq<real>, i: nat, e: nat)
    requires i <= e <= |s|
    ensures s[..i] + s[i..e] == s[..e]
  {
  }

  /**
   * `p = np.zeros(n)`, then `p[i:e] = apply(x[i:e], ...)` for every chunk.
   */
  method PredictChunked(x: seq<seq<real>>, run: seq<seq<real>> -> seq<Output>) returns (p: seq<real>)
    requires Shaped(run)
    ensures p == ChunkedPrediction(x, run)
  {
    var n := |x|;
    var a := new real[n](_ => 0.0);
    var starts := ChunkStarts(n);
    ghost var done := 0;
    for j := 0 to |starts|
      invariant done <= n
      invariant j < |starts| ==> done == starts[j]
      invariant j == |starts| ==> done == n
      invariant a[..done] == FirstChunks(x, run, j)
    {
      var i, e := PredictChunk(a, x, run, j);
      done := e;
    }
    FirstChunksPrediction(x, run, |starts|);
    p := a[..];
    assert p == a[..done];
  }

  /**
   * One pass of the chunk loop, `e = min(n, i + 100000)` and
   * `p[i:e] = apply(x[i:e], ...)` for the chunk `j` starting at `i`: when
   * the slots before `i` hold the earlier chunks' predictions, the slots
   * before `e` now hold those of the first `j + 1` chunks.
   */
  method PredictChunk(a: array<real>, x: seq<seq<real>>, run: seq<seq<real>> -> seq<Output>, j: nat)
    returns (i: nat, e: nat)
    requires Shaped(run) && a.Length == |x| && j < |ChunkStarts(|x|)|
    requires a[..ChunkStarts(|x|)[j]] == FirstChunks(x, run, j)
    modifies a
    ensures i == ChunkStarts(|x|)[j] && e == ChunkEnd(i, |x|) && i < e <= |x|
    ensures i == 0 <==> j == 0
    ensures j + 1 < |ChunkStarts(|x|)| ==> e == ChunkStarts(|x|)[j + 1]
    ensures j + 1 == |ChunkStarts(|x|)| ==> e == |x|
    ensures a[..e] == FirstChunks(x, run, j + 1)
  {
    var n := |x|;
    i := ChunkStarts(n)[j];
    ChunkBounds(n, j);
    e := i + ChunkSize;
    e := if n < e then n else e;
    var chunk := ApplyNet(x[i..e], run);
    WriteChunk(a, i, chunk);
  }

  // ---------------------------------------------------------------------
  // The script
  // ---------------------------------------------------------------------

  /** `df[features].values`: row `r` holds the features of row `r`, in order. */
  function Values(t: Table, features: seq<string>): (x: seq<seq<real>>)
    requires Readable(t, features, CreateTrainingSamples.IsQuark)
    ensures |x| == t.nrows && forall r :: 0 <= r < t.nrows ==> |x[r]| == |features|
  {
    seq(t.nrows, r requires 0 <= r < t.nrows =>
      seq(|features|, c requires 0 <= c < |features| => t.cols[features[c]].xs[r]))
  }

  /** `pandas.DataFrame({'y': y, 'p': p})`. */
  function ResultTable(y: seq<bool>, p: seq<real>): (r: Table)
    requires |y| == |p|
    ensures WellFormed(r) && r.nrows == |y|
  {
    Table(|y|, map["y" := Flags(y), "p" := Reals(p)])
  }

  /** Row `k` of the result pairs the label of row `k` with its prediction. */
  lemma ResultRows(y: seq<bool>, p: seq<real>, k: nat)
    requires |y| == |p| && k < |y|
    ensures ResultTable(y, p).cols.Keys == {"y", "p"}
    ensures ResultTable(y, p).cols["y"].Flags? && ResultTable(y, p).cols["p"].Reals?
    ensures ResultTable(y, p).cols["y"].bs[k] == y[k] && ResultTable(y, p).cols["p"].xs[k] == p[k]
  {
  }

  /**
   * The script on the two samples: each is predicted chunk by chunk from
   * the features of tf_model.py, in their order, and saved with its labels.
   */
  method ApplyModel(train: Table, test: Table, run: seq<seq<real>> -> seq<Output>) returns (resultTrain: Table, resultTest: Table)
    requires Readable(train, Variables, CreateTrainingSamples.IsQuark) && Readable(test, Variables, CreateTrainingSamples.IsQuark)
    requires Shaped(run)
    ensures resultTrain == ResultTable(train.cols[CreateTrainingSamples.IsQuark].bs, ChunkedPrediction(Values(train, Variables), run))
    ensures resultTest == ResultTable(test.cols[CreateTrainingSamples.IsQuark].bs, ChunkedPrediction(Values(test, Variables), run))
  {
    var xTrain := Values(train, Variables);
    var yTrain := train.cols[CreateTrainingSamples.IsQuark].bs;
    var pTrain := PredictChunked(xTrain, run);
    resultTrain := ResultTable(yTrain, pTrain);

    var xTest := Values(test, Variables);
    var yTest := test.cols[CreateTrainingSamples.IsQuark].bs;
    var pTest := PredictChunked(xTest, run);
    resultTest := ResultTable(yTest, pTest);
  }
}
