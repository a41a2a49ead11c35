/**
 * Examples/CreateJetShapes.C: the ROOT macro that computes the jet shapes of
 * the first `nentries` jets of a chain and writes them to a `treeShapes`
 * tree with the branches mass, ntowers, radial and dispersion.
 */
module CreateJetShapes {
  import opened JetShapes

  /**
   * The number of entries processed: all of them when `nentries` is
   * negative or exceeds the chain, else `nentries`.
   */
  function EntryCount(nentries: int, total: nat): (count: nat)
    ensures count <= total
    ensures nentries < 0 ==> count == total
    ensures 0 <= nentries <= total ==> count == nentries
    ensures nentries > total ==> count == total
  {
    var n := if nentries < 0 then total else nentries;
    if n > total then total else n
  }

  /** The output `TTree`: its branches, in creation order, and the rows filled so far. */
  class ShapeTree {
    const name: string
    var branches: seq<string>
    var rows: seq<seq<real>>

    constructor (name: string)
      ensures this.name == name && branches == [] && rows == []
    {
      this.name := name;
      branches := [];
      rows := [];
    }

    method Branch(b: string)
      modifies this
      ensures branches == old(branches) + [b] && rows == old(rows)
    {
      branches := branches + [b];
    }

    /** `treeOut->Fill()`, given the current values of the branch variables. */
    method Fill(row: seq<real>)
      modifies this
      ensures branches == old(branches) && rows == old(rows) + [row]
    {
      rows := rows + [row];
    }
  }

  /**
   * `CreateJetShapes(inputDir, fileOut, nentries)` on the entries of the
   * chain: one row per processed entry, from accumulators reset at every
   * entry. `fewer` and `empty` are the two messages the macro prints.
   */
  method CreateJetShapes(entries: seq<Entry>, nentries: int, g: Geometry) returns (tree: ShapeTree, fewer: bool, empty: bool)
    requires forall k :: 0 <= k < EntryCount(nentries, |entries|) ==> Computable(entries[k])
    ensures fresh(tree) && tree.name == "treeShapes" && tree.branches == ShapeColumns
    ensures |tree.rows| == EntryCount(nentries, |entries|)
    ensures forall k :: 0 <= k < |tree.rows| ==> tree.rows[k] == ShapeRow(entries[k], g)
    ensures fewer <==> nentries > |entries|
    ensures empty <==> EntryCount(nentries, |entries|) == 0
  {
    tree := new ShapeTree("treeShapes");
    tree.Branch("mass");
    tree.Branch("ntowers");
    tree.Branch("radial");
    tree.Branch("dispersion");
    var n := nentries;
    if n < 0 {
      n := |entries|;
    }
    fewer := false;
    if n > |entries| {
      fewer := true;
      n := |entries|;
    }
    empty := n == 0;
    var i := 0;
    while i < n
      invariant 0 <= i <= n == EntryCount(nentries, |entries|)
      invariant tree.branches == ShapeColumns && |tree.rows| == i
      invariant forall k :: 0 <= k < i ==> tree.rows[k] == ShapeRow(entries[k], g)
    {
      var e := entries[i];
      var acc := AccumulateTracks(e, g);
      var shapeLeSub := LeSub(acc);
      var shapeDispersion := if acc.sum != 0.0 then g.sqrt(acc.sumSquares) / acc.sum else 0.0;
      var mass, ntowersLoc := e.jetMass, e.ntowers as real;
      tree.Fill([mass, ntowersLoc, acc.radial, shapeDispersion]);
      i := i + 1;
    }
  }
}
