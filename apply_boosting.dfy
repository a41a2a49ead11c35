/**
 * apply_boosting.py: the boosting network is applied to the inference
 * training and test samples in chunks of 100000 rows, like apply.py; the
 * predictions of the first training chunk are printed.
 *
 * The network is a parameter, as in apply.py.
 */
module ApplyBoosting {
  import opened Frames
  import opened TfModel
  import opened Apply
  import CreateTrainingSamples

  /**
   * `p = np.zeros(n)`, then `p[i:e] = apply(x[i:e], ...)` for every chunk,
   * printing `p[i:e]` when `i == 0`. `printed` lists what is printed: the
   * predictions of the first chunk, once, and nothing for an empty sample.
   */
  method PredictChunkedPrinting(x: seq<seq<real>>, run: seq<seq<real>> -> seq<Output>)
    returns (p: seq<real>, printed: seq<seq<real>>)
    requires Shaped(run)
    ensures p == ChunkedPrediction(x, run)
    ensures printed == if |x| == 0 then [] else [p[..ChunkEnd(0, |x|)]]
  {
    var n := |x|;
    var a := new real[n](_ => 0.0);
    printed := [];
    var starts := ChunkStarts(n);
    ghost var done := 0;
    for j := 0 to |starts|
      invariant done <= n
      invariant j < |starts| ==> done == starts[j]
      invariant j == |starts| ==> done == n
      invariant a[..done] == FirstChunks(x, run, j)
      invariant printed == if j == 0 then [] else [FirstChunks(x, run, 1)]
    {
      var i, e := PredictChunk(a, x, run, j);
      if i == 0 {
        assert a[i..e] == a[..e] == FirstChunks(x, run, 1);
        printed := printed + [a[i..e]];
      }
      done := e;
    }
    p := a[..];
    assert p == a[..done];
    PrintedFirstChunk(x, run, p, printed);
  }

  /** After the last chunk the array holds the prediction, and what was printed is its first chunk. */
  lemma PrintedFirstChunk(x: seq<seq<real>>, run: seq<seq<real>> -> seq<Output>, p: seq<real>, printed: seq<seq<real>>)
    requires Shaped(run) && p == FirstChunks(x, run, |ChunkStarts(|x|)|)
    requires printed == if |ChunkStarts(|x|)| == 0 then [] else [FirstChunks(x, run, 1)]
    ensures p == ChunkedPrediction(x, run)
    ensures printed == if |x| == 0 then [] else [p[..ChunkEnd(0, |x|)]]
  {
    FirstChunksPrediction(x, run, |ChunkStarts(|x|)|);
    if |x| > 0 {
      FirstChunkPrediction(x, run);
    } else {
      assert ChunkStarts(|x|) == [];
    }
  }

  /**
   * The script on the two samples, with the features of tf_model.py in
   * their order: the training sample is predicted chunk by chunk with its
   * first chunk printed, and the test sample chunk by chunk as in apply.py.
   */
  method ApplyBoostingModel(train: Table, test: Table, run: seq<seq<real>> -> seq<Output>)
    returns (pTrain: seq<real>, printed: seq<seq<real>>, pTest: seq<real>)
    requires Readable(train, Variables, CreateTrainingSamples.IsQuark) && Readable(test, Variables, CreateTrainingSamples.IsQuark)
    requires Shaped(run)
    ensures pTrain == ChunkedPrediction(Values(train, Variables), run) && |pTrain| == train.nrows
    ensures printed == if train.nrows == 0 then [] else [pTrain[..ChunkEnd(0, train.nrows)]]
    ensures pTest == ChunkedPrediction(Values(test, Variables), run) && |pTest| == test.nrows
  {
    var xTrain := Values(train, Variables);
    pTrain, printed := PredictChunkedPrinting(xTrain, run);

    var xTest := Values(test, Variables);
    pTest := PredictChunked(xTest, run);
  }
}
