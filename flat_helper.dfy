/**
 * Examples/flat_helper.py: the jet-shape table of a set of ROOT files, and
 * the names of the files it is cached in.
 */
module FlatHelper {
  import opened PyStr
  import opened JetShapes
  import CreateJetShapes

  // ---------------------------------------------------------------------
  // Cache file names
  // ---------------------------------------------------------------------

  /** Makes a path usable as a flat file name: `/` becomes `_`, then `*` becomes `ALL`. */
  function Sanitize(s: string): string
  {
    Replace(Replace(s, '/', "_"), '*', "ALL")
  }

  /** `rootFile[1:rootFile.rfind('.')] + '.pkl'`, sanitized. */
  function PickleFileName(rootFile: string): string
  {
    Sanitize(Slice(rootFile, 1, RFind(rootFile, '.')) + ".pkl")
  }

  /** `rootFileDir + '_shapes.root'`, sanitized. */
  function ShapesFileName(rootFileDir: string): string
  {
    Sanitize(rootFileDir + "_shapes.root")
  }

  /** A sanitized name has no `/` and no `*`. */
  lemma SanitizeClean(s: string)
    ensures '/' !in Sanitize(s) && '*' !in Sanitize(s)
  {
    ReplaceRemoves(s, '/', "_");
    ReplaceKeepsAbsent(Replace(s, '/', "_"), '*', "ALL", '/');
    ReplaceRemoves(Replace(s, '/', "_"), '*', "ALL");
  }

  /** Sanitizing leaves a suffix without `/` and `*` intact. */
  lemma SanitizeSuffix(s: string, suffix: string)
    requires '/' !in suffix && '*' !in suffix
    ensures Sanitize(s + suffix) == Sanitize(s) + suffix
  {
    ReplaceAppend(s, suffix, '/', "_");
    ReplaceAbsent(suffix, '/', "_");
    ReplaceAppend(Replace(s, '/', "_"), suffix, '*', "ALL");
    ReplaceAbsent(suffix, '*', "ALL");
  }

  /**
   * The pickle name drops the first character and everything from the last
   * `.` on, and ends in `.pkl`; without a `.` the slice is `[1:-1]`, which
   * also drops the last character.
   */
  lemma PickleFileNameFacts(rootFile: string)
    ensures '/' !in PickleFileName(rootFile) && '*' !in PickleFileName(rootFile)
    ensures PickleFileName(rootFile) == Sanitize(Slice(rootFile, 1, RFind(rootFile, '.'))) + ".pkl"
  {
    var stem := Slice(rootFile, 1, RFind(rootFile, '.'));
    SanitizeClean(stem + ".pkl");
    SanitizeSuffix(stem, ".pkl");
  }

  /** Without a `.` the slice is `[1:-1]`, which also drops the last character. */
  lemma PickleStem(rootFile: string)
    ensures '.' !in rootFile ==> Slice(rootFile, 1, RFind(rootFile, '.')) == Slice(rootFile, 1, -1)
    ensures '.' in rootFile && 1 <= RFind(rootFile, '.') ==> Slice(rootFile, 1, RFind(rootFile, '.')) == rootFile[1..RFind(rootFile, '.')]
  {
  }

  /** The shapes file name ends in `_shapes.root` after the sanitized directory. */
  lemma ShapesFileNameFacts(rootFileDir: string)
    ensures '/' !in ShapesFileName(rootFileDir) && '*' !in ShapesFileName(rootFileDir)
    ensures ShapesFileName(rootFileDir) == Sanitize(rootFileDir) + "_shapes.root"
  {
    SanitizeClean(rootFileDir + "_shapes.root");
    SanitizeSuffix(rootFileDir, "_shapes.root");
  }

  // ---------------------------------------------------------------------
  // CalculateJetShapes
  // ---------------------------------------------------------------------

  /**
   * `CalculateJetShapes(entry)`: `[jetMass, ntowers, radial, dispersion]`.
   * `ShapeLeSub` is computed and not returned.
   */
  method CalculateJetShapes(e: Entry, g: Geometry) returns (shape: seq<real>)
    requires Computable(e)
    ensures shape == ShapeRow(e, g)
  {
    var acc := AccumulateTracks(e, g);
    var shapeLeSub := LeSub(acc);
    var shapeDispersion := if acc.sum != 0.0 then g.sqrt(acc.sumSquares) / acc.sum else 0.0;
    shape := [e.jetMass, e.ntowers as real, acc.radial, shapeDispersion];
  }

  // ---------------------------------------------------------------------
  // GetJetShapes
  // ---------------------------------------------------------------------

  /** The number of rows requested: all entries when `numSamples` is negative. */
  function Requested(numSamples: int, total: nat): nat
  {
    if numSamples < 0 then total else numSamples
  }

  /** The number of entries skipped before the first row is filled. */
  function Skipped(offset: int, total: nat): (s: nat)
    ensures s <= total
  {
    if offset < 0 then 0 else if offset > total then total else offset
  }

  /** The number of rows filled: the requested number, or fewer when the entries after the skipped ones run out. */
  function Filled(numSamples: int, offset: int, total: nat): (n: nat)
    ensures n <= Requested(numSamples, total) && Skipped(offset, total) + n <= total
    ensures n < Requested(numSamples, total) <==> total - Skipped(offset, total) < Requested(numSamples, total)
  {
    var rest := total - Skipped(offset, total);
    if Requested(numSamples, total) < rest then Requested(numSamples, total) else rest
  }

  /** The progress message divides by the requested number: it fails once an entry is read and nothing was requested. */
  predicate ProgressFails(numSamples: int, total: nat)
  {
    Requested(numSamples, total) == 0 && total > 0
  }

  /** Rows `0 .. count-1` of `data` hold the shapes of the entries from `from` on. */
  ghost predicate ShapeRows(data: array2<real>, entries: seq<Entry>, from: nat, count: nat, g: Geometry)
    reads data
  {
    count <= data.Length0 && from + count <= |entries| && data.Length1 == |ShapeColumns| &&
    (forall k :: from <= k < from + count ==> Computable(entries[k])) &&
    forall r, c :: 0 <= r < count && 0 <= c < |ShapeColumns| ==> data[r, c] == ShapeRow(entries[from + r], g)[c]
  }

  /** The rows of `data` from `from` on are still zero. */
  ghost predicate ZeroRows(data: array2<real>, from: nat)
    reads data
  {
    forall r, c :: from <= r < data.Length0 && 0 <= c < data.Length1 ==> data[r, c] == 0.0
  }

  /**
   * `GetJetShapes(rootFile, numSamples, offset, recompute=True)` over the
   * entries of the chain: a `numSamples x 4` table of zeros, whose rows
   * 0, 1, ... receive the shapes of the entries after the first `offset`,
   * until `numSamples` rows are filled or the entries run out. `ok` is false
   * when the progress message divides by zero; `warned` is the "only ...
   * samples loaded" message. The table is saved under `pickleFile`.
   */
  method GetJetShapes(rootFile: string, numSamples: int, offset: int, entries: seq<Entry>, g: Geometry)
    returns (ok: bool, pickleFile: string, data: array2<real>, warned: bool)
    requires forall k ::
               Skipped(offset, |entries|) <= k < Skipped(offset, |entries|) + Filled(numSamples, offset, |entries|) ==>
               Computable(entries[k])
    ensures pickleFile == PickleFileName(rootFile)
    ensures ok <==> !ProgressFails(numSamples, |entries|)
    ensures ok ==> fresh(data) && data.Length0 == Requested(numSamples, |entries|) && data.Length1 == 4
    ensures ok ==> ShapeRows(data, entries, Skipped(offset, |entries|), Filled(numSamples, offset, |entries|), g)
    ensures ok ==> ZeroRows(data, Filled(numSamples, offset, |entries|))
    ensures ok ==> (warned <==> Filled(numSamples, offset, |entries|) < Requested(numSamples, |entries|))
  {
    pickleFile := PickleFileName(rootFile);
    var n := numSamples;
    if n < 0 {
      n := |entries|;
    }
    data := new real[n, 4]((r, c) => 0.0);
    var filled;
    ok, filled := FillShapes(data, numSamples, offset, entries, g);
    warned := ok && filled < n;
  }

  /**
   * The loop over the chain: skips the first `offset` entries, then fills
   * rows 0, 1, ... of the zero table with the entries' shapes until it is
   * full or the entries run out. `ok` is false when the progress message
   * divides by zero.
   */
  method FillShapes(data: array2<real>, numSamples: int, offset: int, entries: seq<Entry>, g: Geometry)
    returns (ok: bool, ijet: nat)
    requires data.Length0 == Requested(numSamples, |entries|) && data.Length1 == 4 && ZeroRows(data, 0)
    requires forall k ::
               Skipped(offset, |entries|) <= k < Skipped(offset, |entries|) + Filled(numSamples, offset, |entries|) ==>
               Computable(entries[k])
    modifies data
    ensures ok <==> !ProgressFails(numSamples, |entries|)
    ensures ok ==> ijet == Filled(numSamples, offset, |entries|)
    ensures ok ==> ShapeRows(data, entries, Skipped(offset, |entries|), ijet, g) && ZeroRows(data, ijet)
  {
    var n := data.Length0;
    ghost var skip, filled := Skipped(offset, |entries|), Filled(numSamples, offset, |entries|);
    var skipped := 0;
    ijet := 0;
    var k := 0;
    while k < |entries|
      invariant 0 <= k <= |entries|
      invariant n > 0 || k == 0
      invariant skipped == (if k < skip then k else skip) && (k < skip ==> ijet == 0)
      invariant k >= skip ==> ijet == k - skip
      invariant ijet <= filled && (ijet < n || n == 0)
      invariant ShapeRows(data, entries, skip, ijet, g) && ZeroRows(data, ijet)
    {
      if n == 0 {
        return false, ijet;
      }
      if skipped < offset {
        skipped := skipped + 1;
        k := k + 1;
        continue;
      }
      var row := CalculateJetShapes(entries[k], g);
      SetRow(data, entries, skip, ijet, row, g);
      ijet := ijet + 1;
      k := k + 1;
      if ijet >= n {
        break;
      }
    }
    assert ijet == filled;
    ok := true;
  }

  /** `data.iloc[count] = row` with the shapes of entry `from + count`: one more row is filled. */
  method SetRow(data: array2<real>, ghost entries: seq<Entry>, ghost from: nat, count: nat, row: seq<real>, ghost g: Geometry)
    requires ShapeRows(data, entries, from, count, g) && ZeroRows(data, count)
    requires count < data.Length0 && from + count < |entries| && Computable(entries[from + count])
    requires row == ShapeRow(entries[from + count], g)
    modifies data
    ensures ShapeRows(data, entries, from, count + 1, g) && ZeroRows(data, count + 1)
  {
    forall c | 0 <= c < data.Length1 {
      data[count, c] := row[c];
    }
    forall r, c | 0 <= r < count + 1 && 0 <= c < |ShapeColumns|
      ensures data[r, c] == ShapeRow(entries[from + r], g)[c]
    {
      if r < count {
        assert old(data[r, c]) == ShapeRow(entries[from + r], g)[c];
      }
    }
  }

  /**
   * `GetJetShapesFast(rootFileDir, numSamples, offset, recompute=True)`: the
   * rows the macro writes to the shapes file, and the "only ... samples
   * loaded" message. The offset is accepted and not used.
   */
  method GetJetShapesFast(rootFileDir: string, numSamples: int, offset: int, entries: seq<Entry>, g: Geometry)
    returns (shapesFile: string, data: seq<seq<real>>, warned: bool)
    requires forall k :: 0 <= k < CreateJetShapes.EntryCount(numSamples, |entries|) ==> Computable(entries[k])
    ensures shapesFile == ShapesFileName(rootFileDir)
    ensures |data| == CreateJetShapes.EntryCount(numSamples, |entries|)
    ensures forall k :: 0 <= k < |data| ==> data[k] == ShapeRow(entries[k], g)
    ensures warned <==> |data| < numSamples
  {
    shapesFile := ShapesFileName(rootFileDir);
    var tree, fewer, empty := CreateJetShapes.CreateJetShapes(entries, numSamples, g);
    data := tree.rows;
    warned := |data| < numSamples;
  }

  /**
   * Without an offset the macro processes exactly the entries whose rows
   * `GetJetShapes` fills; it only leaves out the zero rows `GetJetShapes`
   * keeps when fewer entries than requested exist.
   */
  lemma FastMatchesSlow(numSamples: int, total: nat)
    ensures CreateJetShapes.EntryCount(numSamples, total) == Filled(numSamples, 0, total)
    ensures Requested(numSamples, total) - Filled(numSamples, 0, total) == if numSamples > total then numSamples - total else 0
  {
  }
}
