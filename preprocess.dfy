/**
 * Examples/TMVA/preprocess_data.py: copies the jets of the gluon and quark
 * ROOT files into one output file with fixed-size branches.
 *
 * Each event's track and tower arrays are truncated or zero-padded, in input
 * order, into `num_tracks` and `num_towers` slot branches named
 * `{variable}_{i}`; the six jet scalars are copied as they are. The slot
 * buffers are shared by all events, and every slot is zeroed before an event
 * is copied in.
 */
module Preprocess {
  import opened Names
  import opened PyStr
  import opened Results

  // ---------------------------------------------------------------------
  // process_arguments
  // ---------------------------------------------------------------------

  /** The command-line options argparse read; `None` for an option that was not given. */
  datatype Options = Options(gluons: Option<string>, quarks: Option<string>, tracks: Option<int>,
                             towers: Option<int>, output: Option<string>)

  datatype Args = Args(gluons: string, quarks: string, tracks: int, towers: int, output: string)

  const DefaultSlots: int := 5
  const DefaultOutput: string := "preprocessed_data.root"
  const NoGluons: string := "Please specify ROOT files for option --gluons"
  const NoQuarks: string := "Please specify ROOT files for option --quarks"

  /**
   * `process_arguments()`: the options with their defaults filled in; it
   * raises when the gluon or the quark file list is empty, the gluons being
   * checked first.
   */
  function ProcessArguments(o: Options): (r: Result<Args>)
    ensures r.Ok? <==> GetOr(o.gluons, "") != "" && GetOr(o.quarks, "") != ""
    ensures GetOr(o.gluons, "") == "" ==> r == Error(NoGluons)
    ensures GetOr(o.gluons, "") != "" && GetOr(o.quarks, "") == "" ==> r == Error(NoQuarks)
    ensures r.Ok? ==> r.value.gluons == o.gluons.value && r.value.quarks == o.quarks.value
    ensures r.Ok? ==> r.value.tracks == GetOr(o.tracks, DefaultSlots) && r.value.towers == GetOr(o.towers, DefaultSlots)
    ensures r.Ok? ==> r.value.output == GetOr(o.output, DefaultOutput)
  {
    var args := Args(GetOr(o.gluons, ""), GetOr(o.quarks, ""), GetOr(o.tracks, DefaultSlots),
                     GetOr(o.towers, DefaultSlots), GetOr(o.output, DefaultOutput));
    if args.gluons == "" then Error(NoGluons)
    else if args.quarks == "" then Error(NoQuarks)
    else Ok(args)
  }

  // ---------------------------------------------------------------------
  // combine_files
  // ---------------------------------------------------------------------

  /** A `TChain`: the name of the tree it reads and the files added to it, in order. */
  class Chain {
    const tree: string
    var files: seq<string>

    constructor (tree: string)
      ensures this.tree == tree && files == []
    {
      this.tree := tree;
      files := [];
    }

    /** `TChain.AddFile`. */
    method AddFile(name: string)
      modifies this
      ensures files == old(files) + [name]
    {
      files := files + [name];
    }
  }

  /** The files `combine_files` adds: the blank-separated words of the stripped list. */
  function FileList(filenames: string): (names: seq<string>)
    ensures |names| >= 1 && forall k :: 0 <= k < |names| ==> ' ' !in names[k]
  {
    Split(Strip(filenames), ' ')
  }

  /** `combine_files(filenames, tree)`: a chain with one file per element of `filenames.strip().split(' ')`, in order. */
  method CombineFiles(filenames: string, tree: string) returns (chain: Chain)
    ensures fresh(chain) && chain.tree == tree && chain.files == FileList(filenames)
  {
    chain := new Chain(tree);
    var names := Split(Strip(filenames), ' ');
    var j := 0;
    while j < |names|
      invariant 0 <= j <= |names| && chain.files == names[..j]
    {
      TakeSnoc(names, j);
      chain.AddFile(names[j]);
      j := j + 1;
    }
  }

  /**
   * The file list loses nothing but the surrounding blanks: joined with
   * blanks it is the stripped argument, and there is one more file than
   * there are blanks inside it.
   */
  lemma FileListJoin(filenames: string)
    ensures Join(FileList(filenames), ' ') == Strip(filenames)
    ensures |FileList(filenames)| == Count(Strip(filenames), ' ') + 1
  {
    JoinSplit(Strip(filenames), ' ');
    SplitCount(Strip(filenames), ' ');
  }

  // ---------------------------------------------------------------------
  // Events
  // ---------------------------------------------------------------------

  /** One entry of the input tree: the jet scalars and the track and tower arrays, by branch name. */
  datatype Event = Event(scalars: map<string, real>, arrays: map<string, seq<real>>)

  /** The event has every branch the script reads (else `getattr` raises). */
  predicate HasBranches(e: Event)
  {
    (forall v :: v in JetVariables ==> v in e.scalars)
    && (forall v :: v in TrackVariables ==> v in e.arrays)
    && (forall v :: v in TowerVariables ==> v in e.arrays)
  }

  /** Every file of the list exists and every event it holds has the branches read. */
  predicate Readable(files: seq<string>, contents: map<string, seq<Event>>)
  {
    forall f :: f in files ==> f in contents && forall e :: e in contents[f] ==> HasBranches(e)
  }

  /** The events a chain yields: those of its files, file after file. */
  function ChainEvents(files: seq<string>, contents: map<string, seq<Event>>): (events: seq<Event>)
    requires forall f :: f in files ==> f in contents
    ensures Readable(files, contents) ==> forall j :: 0 <= j < |events| ==> HasBranches(events[j])
  {
    if |files| == 0 then []
    else
      var init, last := files[..|files| - 1], files[|files| - 1];
      assert forall f :: f in init ==> f in files;
      assert Readable(files, contents) ==> forall e :: e in contents[last] ==> HasBranches(e);
      ChainEvents(init, contents) + contents[last]
  }

  lemma {:induction false} ChainEventsAppend(files: seq<string>, f: string, contents: map<string, seq<Event>>)
    requires forall g :: g in files ==> g in contents
    requires f in contents
    ensures ChainEvents(files + [f], contents) == ChainEvents(files, contents) + contents[f]
  {
    assert (files + [f])[..|files|] == files;
  }

  /** Python's `range(n)` is empty for negative `n`: the number of slots actually created. */
  function SlotCount(n: int): nat
  {
    if n < 0 then 0 else n
  }

  // ---------------------------------------------------------------------
  // add_tree
  // ---------------------------------------------------------------------

  /** The branch names of the output tree, in the order they are created. */
  function BranchNames(numTracks: int, numTowers: int): seq<string>
  {
    ColumnNames(SlotCount(numTracks), SlotCount(numTowers))
  }

  /** Slot `i` of an array truncated or zero-padded to `n` slots, in input order. */
  function Padded(values: seq<real>, n: nat): (slots: seq<real>)
    ensures |slots| == n
    ensures forall i :: 0 <= i < n && i < |values| ==> slots[i] == values[i]
    ensures forall i :: |values| <= i < n ==> slots[i] == 0.0
  {
    seq(n, i requires 0 <= i < n => if i < |values| then values[i] else 0.0)
  }

  /** The slot values of the variables `cs`, in the order of `SlotList(cs, n)`. */
  function PaddedList(e: Event, cs: seq<string>, n: nat): seq<real>
    requires forall v :: v in cs ==> v in e.arrays
  {
    if |cs| == 0 then []
    else
      assert forall v :: v in cs[..|cs| - 1] ==> v in cs;
      PaddedList(e, cs[..|cs| - 1], n) + Padded(e.arrays[cs[|cs| - 1]], n)
  }

  /** The row the tree stores for event `e`, one value per branch of `BranchNames`. */
  function Row(e: Event, numTracks: int, numTowers: int): seq<real>
    requires HasBranches(e)
  {
    seq(|JetVariables|, k requires 0 <= k < |JetVariables| => e.scalars[JetVariables[k]])
    + PaddedList(e, TrackVariables, SlotCount(numTracks)) + PaddedList(e, TowerVariables, SlotCount(numTowers))
  }

  lemma {:induction false} PaddedListLength(e: Event, cs: seq<string>, n: nat)
    requires forall v :: v in cs ==> v in e.arrays
    ensures |PaddedList(e, cs, n)| == |cs| * n
  {
    if |cs| > 0 {
      assert forall v :: v in cs[..|cs| - 1] ==> v in cs;
      PaddedListLength(e, cs[..|cs| - 1], n);
      assert (|cs| - 1) * n + n == |cs| * n;
    }
  }

  /** Element `m * n + i` of the padded values is slot `i` of variable `m`, as in `SlotList`. */
  lemma {:induction false} PaddedListIndex(e: Event, cs: seq<string>, n: nat, m: nat, i: nat)
    requires forall v :: v in cs ==> v in e.arrays
    requires m < |cs| && i < n
    ensures m * n + i < |PaddedList(e, cs, n)| && PaddedList(e, cs, n)[m * n + i] == Padded(e.arrays[cs[m]], n)[i]
  {
    var init := cs[..|cs| - 1];
    assert forall v :: v in init ==> v in cs;
    PaddedListLength(e, init, n);
    if m < |cs| - 1 {
      PaddedListIndex(e, init, n, m, i);
    } else {
      assert m * n == |init| * n;
    }
  }

  /** The row has one value per branch. */
  lemma RowLength(e: Event, numTracks: int, numTowers: int)
    requires HasBranches(e)
    ensures |Row(e, numTracks, numTowers)| == |BranchNames(numTracks, numTowers)|
      == |JetVariables| + |TrackVariables| * SlotCount(numTracks) + |TowerVariables| * SlotCount(numTowers)
  {
    PaddedListLength(e, TrackVariables, SlotCount(numTracks));
    PaddedListLength(e, TowerVariables, SlotCount(numTowers));
    SlotListLength(TrackVariables, SlotCount(numTracks));
    SlotListLength(TowerVariables, SlotCount(numTowers));
  }

  /** No two branches of the output tree share a name. */
  lemma BranchNamesDistinct(numTracks: int, numTowers: int)
    ensures Distinct(BranchNames(numTracks, numTowers))
  {
    ColumnNamesDistinct(SlotCount(numTracks), SlotCount(numTowers));
  }

  /** Where jet scalar `m` sits in the branches and the row. */
  lemma JetValue(e: Event, numTracks: int, numTowers: int, m: nat)
    requires HasBranches(e) && m < |JetVariables|
    ensures BranchNames(numTracks, numTowers)[m] == JetVariables[m]
    ensures Row(e, numTracks, numTowers)[m] == e.scalars[JetVariables[m]]
  {
    RowLength(e, numTracks, numTowers);
  }

  /** Slot `i` of track variable `m` is branch `6 + m * numTracks + i`. */
  lemma TrackBranch(numTracks: int, numTowers: int, m: nat, i: nat)
    requires m < |TrackVariables| && i < SlotCount(numTracks)
    ensures var k := |JetVariables| + m * SlotCount(numTracks) + i;
      k < |BranchNames(numTracks, numTowers)| && BranchNames(numTracks, numTowers)[k] == Suffixed(TrackVariables[m], i)
  {
    TrackColumn(SlotCount(numTracks), SlotCount(numTowers), m, i);
  }

  /** Slot `i` of tower variable `m` follows all track slots. */
  lemma TowerBranch(numTracks: int, numTowers: int, m: nat, i: nat)
    requires m < |TowerVariables| && i < SlotCount(numTowers)
    ensures var k := |JetVariables| + |TrackVariables| * SlotCount(numTracks) + m * SlotCount(numTowers) + i;
      k < |BranchNames(numTracks, numTowers)| && BranchNames(numTracks, numTowers)[k] == Suffixed(TowerVariables[m], i)
  {
    TowerColumn(SlotCount(numTracks), SlotCount(numTowers), m, i);
  }

  /**
   * The value a row holds under slot `i` of track variable `m`: the `i`-th
   * entry of the event's array, or zero past its end.
   */
  lemma TrackValue(e: Event, numTracks: int, numTowers: int, m: nat, i: nat)
    requires HasBranches(e) && m < |TrackVariables| && i < SlotCount(numTracks)
    ensures var k := |JetVariables| + m * SlotCount(numTracks) + i;
      var values := e.arrays[TrackVariables[m]];
      k < |BranchNames(numTracks, numTowers)| == |Row(e, numTracks, numTowers)|
      && BranchNames(numTracks, numTowers)[k] == Suffixed(TrackVariables[m], i)
      && Row(e, numTracks, numTowers)[k] == (if i < |values| then values[i] else 0.0)
  {
    RowLength(e, numTracks, numTowers);
    TrackBranch(numTracks, numTowers, m, i);
    PaddedListIndex(e, TrackVariables, SlotCount(numTracks), m, i);
  }

  /** The same for slot `i` of tower variable `m`. */
  lemma TowerValue(e: Event, numTracks: int, numTowers: int, m: nat, i: nat)
    requires HasBranches(e) && m < |TowerVariables| && i < SlotCount(numTowers)
    ensures var k := |JetVariables| + |TrackVariables| * SlotCount(numTracks) + m * SlotCount(numTowers) + i;
      var values := e.arrays[TowerVariables[m]];
      k < |BranchNames(numTracks, numTowers)| == |Row(e, numTracks, numTowers)|
      && BranchNames(numTracks, numTowers)[k] == Suffixed(TowerVariables[m], i)
      && Row(e, numTracks, numTowers)[k] == (if i < |values| then values[i] else 0.0)
  {
    RowLength(e, numTracks, numTowers);
    TowerBranch(numTracks, numTowers, m, i);
    RowTowerAt(e, numTracks, numTowers, m, i);
  }

  /** The row value under slot `i` of tower variable `m`, past the jet scalars and all track slots. */
  lemma RowTowerAt(e: Event, numTracks: int, numTowers: int, m: nat, i: nat)
    requires HasBranches(e) && m < |TowerVariables| && i < SlotCount(numTowers)
    ensures var k := |JetVariables| + |TrackVariables| * SlotCount(numTracks) + m * SlotCount(numTowers) + i;
      var values := e.arrays[TowerVariables[m]];
      k < |Row(e, numTracks, numTowers)| && Row(e, numTracks, numTowers)[k] == (if i < |values| then values[i] else 0.0)
  {
    var jets := seq(|JetVariables|, k requires 0 <= k < |JetVariables| => e.scalars[JetVariables[k]]);
    var tracks := PaddedList(e, TrackVariables, SlotCount(numTracks));
    PaddedListLength(e, TrackVariables, SlotCount(numTracks));
    PaddedListIndex(e, TowerVariables, SlotCount(numTowers), m, i);
    ThirdIndex(jets, tracks, PaddedList(e, TowerVariables, SlotCount(numTowers)), m * SlotCount(numTowers) + i);
  }

  // ---------------------------------------------------------------------
  // The output tree and its branch buffers
  // ---------------------------------------------------------------------

  /** The current value of each of `names`. */
  function Lookup(buffers: map<string, real>, names: seq<string>): (values: seq<real>)
    requires forall k :: 0 <= k < |names| ==> names[k] in buffers
    ensures |values| == |names| && forall k :: 0 <= k < |names| ==> values[k] == buffers[names[k]]
  {
    seq(|names|, k requires 0 <= k < |names| => buffers[names[k]])
  }

  /** The tree as written: name, branches and one row per filled event. */
  datatype Tree = Tree(name: string, branches: seq<string>, rows: seq<seq<real>>)

  /**
   * A `TTree` under construction together with the `variables` dictionary of
   * one-element buffers whose addresses its branches hold: `Fill` stores the
   * current buffer of every branch.
   */
  class OutTree {
    const name: string
    var branches: seq<string>
    var buffers: map<string, real>
    var rows: seq<seq<real>>

    ghost predicate Valid()
      reads this
    {
      forall k :: 0 <= k < |branches| ==> branches[k] in buffers
    }

    constructor (name: string)
      ensures Valid() && this.name == name && branches == [] && buffers == map[] && rows == []
    {
      this.name := name;
      branches := [];
      buffers := map[];
      rows := [];
    }

    /** `variables[b] = array('f', [-999])` and `tree.Branch(b, variables[b], ...)`. */
    method Branch(b: string)
      requires Valid()
      modifies this
      ensures Valid() && branches == old(branches) + [b] && buffers == old(buffers)[b := -999.0] && rows == old(rows)
    {
      branches := branches + [b];
      buffers := buffers[b := -999.0];
    }

    /** `variables[b][0] = x`. */
    method Set(b: string, x: real)
      requires Valid() && b in buffers
      modifies this
      ensures Valid() && branches == old(branches) && buffers == old(buffers)[b := x] && rows == old(rows)
    {
      buffers := buffers[b := x];
    }

    /** `tree.Fill()`: appends the current value of every branch. */
    method Fill()
      requires Valid()
      modifies this
      ensures Valid() && branches == old(branches) && buffers == old(buffers)
      ensures rows == old(rows) + [Lookup(buffers, branches)]
    {
      rows := rows + [Lookup(buffers, branches)];
    }

    function Snapshot(): Tree
      reads this
    {
      Tree(name, branches, rows)
    }
  }

  /** Creates the branches `{v}_0 .. {v}_{n-1}` for each variable `v` of `cs`. */
  method AddSlotBranches(tree: OutTree, cs: seq<string>, n: int)
    requires tree.Valid()
    modifies tree
    ensures tree.Valid() && tree.branches == old(tree.branches) + SlotList(cs, SlotCount(n)) && tree.rows == old(tree.rows)
  {
    var j := 0;
    while j < |cs|
      invariant 0 <= j <= |cs| && tree.Valid() && tree.rows == old(tree.rows)
      invariant tree.branches == old(tree.branches) + SlotList(cs[..j], SlotCount(n))
    {
      var i := 0;
      while i < n
        invariant 0 <= j < |cs| && tree.Valid() && tree.rows == old(tree.rows)
        invariant 0 <= i <= SlotCount(n)
        invariant tree.branches == old(tree.branches) + SlotList(cs[..j], SlotCount(n)) + Slots(cs[j], i)
      {
        assert Slots(cs[j], i + 1) == Slots(cs[j], i) + [Suffixed(cs[j], i)];
        tree.Branch(Suffixed(cs[j], i));
        i := i + 1;
      }
      assert cs[..j + 1][..j] == cs[..j];
      j := j + 1;
    }
    assert cs[..j] == cs;
  }

  /** Distinct slots of one variable have distinct names. */
  lemma SlotNamesDiffer(c: string, i: nat)
    ensures forall k: nat :: k != i ==> Suffixed(c, k) != Suffixed(c, i)
  {
    forall k: nat | Suffixed(c, k) == Suffixed(c, i) ensures k == i {
      SuffixedSameBase(c, k, i);
    }
  }

  /**
   * The zeroing loop and the copying loop for one variable: sets the `n`
   * slots of `c` to `values` truncated or zero-padded, and no other buffer.
   */
  method PadSlots(tree: OutTree, c: string, values: seq<real>, n: int)
    requires tree.Valid() && forall i :: 0 <= i < SlotCount(n) ==> Suffixed(c, i) in tree.buffers
    modifies tree
    ensures tree.Valid() && tree.branches == old(tree.branches) && tree.rows == old(tree.rows)
    ensures tree.buffers.Keys == old(tree.buffers).Keys
    ensures forall i :: 0 <= i < SlotCount(n) ==> tree.buffers[Suffixed(c, i)] == Padded(values, SlotCount(n))[i]
    ensures forall b :: b in old(tree.buffers) && b !in Slots(c, SlotCount(n)) ==> tree.buffers[b] == old(tree.buffers)[b]
  {
    ZeroSlots(tree, c, n);
    var count := if n < |values| then n else |values|;
    CopySlots(tree, c, values, count, SlotCount(n));
  }

  /** `variables['{c}_{i}'][0] = 0.0` for `i` in `range(n)`. */
  method ZeroSlots(tree: OutTree, c: string, n: int)
    requires tree.Valid() && forall i :: 0 <= i < SlotCount(n) ==> Suffixed(c, i) in tree.buffers
    modifies tree
    ensures tree.Valid() && tree.branches == old(tree.branches) && tree.rows == old(tree.rows)
    ensures tree.buffers.Keys == old(tree.buffers).Keys
    ensures forall i :: 0 <= i < SlotCount(n) ==> tree.buffers[Suffixed(c, i)] == 0.0
    ensures forall b :: b in old(tree.buffers) && b !in Slots(c, SlotCount(n)) ==> tree.buffers[b] == old(tree.buffers)[b]
  {
    ghost var w := SlotCount(n);
    var i := 0;
    while i < n
      invariant 0 <= i <= w && tree.Valid() && tree.branches == old(tree.branches) && tree.rows == old(tree.rows)
      invariant tree.buffers.Keys == old(tree.buffers).Keys
      invariant forall k :: 0 <= k < i ==> tree.buffers[Suffixed(c, k)] == 0.0
      invariant forall b :: b in old(tree.buffers) && b !in Slots(c, w) ==> tree.buffers[b] == old(tree.buffers)[b]
    {
      SlotNamesDiffer(c, i);
      tree.Set(Suffixed(c, i), 0.0);
      i := i + 1;
    }
  }

  /**
   * `variables['{c}_{i}'][0] = values[i]` for `i` in `range(count)`, over
   * zeroed slots: the `w` slots then hold `values` truncated or zero-padded.
   */
  method CopySlots(tree: OutTree, c: string, values: seq<real>, count: int, w: nat)
    requires tree.Valid() && count <= |values| && SlotCount(count) <= w && (SlotCount(count) < w ==> count == |values|)
    requires forall i :: 0 <= i < w ==> Suffixed(c, i) in tree.buffers && tree.buffers[Suffixed(c, i)] == 0.0
    modifies tree
    ensures tree.Valid() && tree.branches == old(tree.branches) && tree.rows == old(tree.rows)
    ensures tree.buffers.Keys == old(tree.buffers).Keys
    ensures forall i :: 0 <= i < w ==> tree.buffers[Suffixed(c, i)] == Padded(values, w)[i]
    ensures forall b :: b in old(tree.buffers) && b !in Slots(c, w) ==> tree.buffers[b] == old(tree.buffers)[b]
  {
    var i := 0;
    while i < count
      invariant 0 <= i <= SlotCount(count)
      invariant tree.Valid() && tree.branches == old(tree.branches) && tree.rows == old(tree.rows)
      invariant tree.buffers.Keys == old(tree.buffers).Keys
      invariant forall k :: 0 <= k < i ==> tree.buffers[Suffixed(c, k)] == values[k]
      invariant forall k :: i <= k < w ==> tree.buffers[Suffixed(c, k)] == 0.0
      invariant forall b :: b in old(tree.buffers) && b !in Slots(c, w) ==> tree.buffers[b] == old(tree.buffers)[b]
    {
      SlotNamesDiffer(c, i);
      tree.Set(Suffixed(c, i), values[i]);
      i := i + 1;
    }
  }

  /** The slot buffers of the variables `cs` hold the event's arrays, truncated or zero-padded to `n`. */
  ghost predicate GroupHeld(buffers: map<string, real>, e: Event, cs: seq<string>, n: nat)
  {
    (forall v :: v in cs ==> v in e.arrays)
    && forall m, i :: 0 <= m < |cs| && 0 <= i < n ==>
         Suffixed(cs[m], i) in buffers && buffers[Suffixed(cs[m], i)] == Padded(e.arrays[cs[m]], n)[i]
  }

  /** Pads every variable of `cs` in turn; buffers outside their slots keep their values. */
  method PadGroup(tree: OutTree, e: Event, cs: seq<string>, n: int)
    requires tree.Valid() && Distinct(cs) && forall m :: 0 <= m < |cs| ==> PlainName(cs[m])
    requires forall v :: v in cs ==> v in e.arrays
    requires forall m, i :: 0 <= m < |cs| && 0 <= i < SlotCount(n) ==> Suffixed(cs[m], i) in tree.buffers
    modifies tree
    ensures tree.Valid() && tree.branches == old(tree.branches) && tree.rows == old(tree.rows)
    ensures tree.buffers.Keys == old(tree.buffers).Keys
    ensures GroupHeld(tree.buffers, e, cs, SlotCount(n))
    ensures forall b :: b in old(tree.buffers) && b !in SlotNames(cs, SlotCount(n)) ==> tree.buffers[b] == old(tree.buffers)[b]
  {
    ghost var w := SlotCount(n);
    var j := 0;
    while j < |cs|
      invariant 0 <= j <= |cs| && tree.Valid() && tree.branches == old(tree.branches) && tree.rows == old(tree.rows)
      invariant tree.buffers.Keys == old(tree.buffers).Keys
      invariant GroupHeld(tree.buffers, e, cs[..j], w)
      invariant forall b :: b in old(tree.buffers) && b !in SlotNames(cs[..j], w) ==> tree.buffers[b] == old(tree.buffers)[b]
    {
      ghost var before := tree.buffers;
      PadSlots(tree, cs[j], e.arrays[cs[j]], n);
      forall m, i | 0 <= m < j && 0 <= i < w ensures Suffixed(cs[m], i) !in Slots(cs[j], w) {
        OtherSlot(cs[m], i, cs[j], w);
      }
      TakeSnoc(cs, j);
      SlotNamesSnoc(cs[..j], cs[j], w);
      j := j + 1;
    }
    assert cs[..j] == cs;
  }

  lemma LookupAppend(buffers: map<string, real>, a: seq<string>, b: seq<string>)
    requires forall k :: 0 <= k < |a| ==> a[k] in buffers
    requires forall k :: 0 <= k < |b| ==> b[k] in buffers
    ensures forall k :: 0 <= k < |a + b| ==> (a + b)[k] in buffers
    ensures Lookup(buffers, a + b) == Lookup(buffers, a) + Lookup(buffers, b)
  {
  }

  lemma LookupSlots(buffers: map<string, real>, c: string, values: seq<real>, n: nat)
    requires forall i :: 0 <= i < n ==> Suffixed(c, i) in buffers && buffers[Suffixed(c, i)] == Padded(values, n)[i]
    ensures forall k :: 0 <= k < n ==> Slots(c, n)[k] in buffers
    ensures Lookup(buffers, Slots(c, n)) == Padded(values, n)
  {
  }

  /** Buffers that hold an event's values give that event's padded values. */
  lemma {:induction false} LookupSlotList(buffers: map<string, real>, e: Event, cs: seq<string>, n: nat)
    requires GroupHeld(buffers, e, cs, n)
    ensures forall k :: 0 <= k < |SlotList(cs, n)| ==> SlotList(cs, n)[k] in buffers
    ensures Lookup(buffers, SlotList(cs, n)) == PaddedList(e, cs, n)
  {
    if |cs| > 0 {
      var init, last := cs[..|cs| - 1], cs[|cs| - 1];
      assert GroupHeld(buffers, e, init, n) by {
        assert forall m :: 0 <= m < |init| ==> init[m] == cs[m];
      }
      LookupSlotList(buffers, e, init, n);
      assert forall i :: 0 <= i < n ==> Suffixed(last, i) in buffers && buffers[Suffixed(last, i)] == Padded(e.arrays[last], n)[i] by {
        assert last == cs[|cs| - 1];
      }
      LookupSlots(buffers, last, e.arrays[last], n);
      LookupAppend(buffers, SlotList(init, n), Slots(last, n));
    }
  }

  lemma FilledRow(buffers: map<string, real>, e: Event, numTracks: int, numTowers: int)
    requires HasBranches(e)
    requires forall k :: 0 <= k < |JetVariables| ==> JetVariables[k] in buffers && buffers[JetVariables[k]] == e.scalars[JetVariables[k]]
    requires GroupHeld(buffers, e, TrackVariables, SlotCount(numTracks))
    requires GroupHeld(buffers, e, TowerVariables, SlotCount(numTowers))
    ensures forall k :: 0 <= k < |BranchNames(numTracks, numTowers)| ==> BranchNames(numTracks, numTowers)[k] in buffers
    ensures Lookup(buffers, BranchNames(numTracks, numTowers)) == Row(e, numTracks, numTowers)
  {
    var nt, nw := SlotCount(numTracks), SlotCount(numTowers);
    LookupSlotList(buffers, e, TrackVariables, nt);
    LookupSlotList(buffers, e, TowerVariables, nw);
    var a, b, c := JetVariables, SlotList(TrackVariables, nt), SlotList(TowerVariables, nw);
    LookupAppend(buffers, a, b);
    LookupAppend(buffers, a + b, c);
  }

  /** Every branch of a tree with the branches of `BranchNames` has a buffer. */
  lemma BranchBuffers(buffers: map<string, real>, numTracks: int, numTowers: int)
    requires forall k :: 0 <= k < |BranchNames(numTracks, numTowers)| ==> BranchNames(numTracks, numTowers)[k] in buffers
    ensures forall k :: 0 <= k < |JetVariables| ==> JetVariables[k] in buffers
    ensures forall m, i :: 0 <= m < |TrackVariables| && 0 <= i < SlotCount(numTracks) ==> Suffixed(TrackVariables[m], i) in buffers
    ensures forall m, i :: 0 <= m < |TowerVariables| && 0 <= i < SlotCount(numTowers) ==> Suffixed(TowerVariables[m], i) in buffers
  {
    assert forall k :: 0 <= k < |JetVariables| ==> BranchNames(numTracks, numTowers)[k] == JetVariables[k];
    forall m, i | 0 <= m < |TrackVariables| && 0 <= i < SlotCount(numTracks) ensures Suffixed(TrackVariables[m], i) in buffers {
      TrackBranch(numTracks, numTowers, m, i);
    }
    forall m, i | 0 <= m < |TowerVariables| && 0 <= i < SlotCount(numTowers) ensures Suffixed(TowerVariables[m], i) in buffers {
      TowerBranch(numTracks, numTowers, m, i);
    }
  }

  /**
   * One pass of the event loop: copies the scalars, zeroes and refills the
   * slots of every track and tower variable, and fills the tree. The row
   * stored depends on this event only, whatever the buffers held before.
   */
  method FillEvent(tree: OutTree, e: Event, numTracks: int, numTowers: int)
    requires tree.Valid() && tree.branches == BranchNames(numTracks, numTowers) && HasBranches(e)
    modifies tree
    ensures tree.Valid() && tree.branches == old(tree.branches) && tree.buffers.Keys == old(tree.buffers).Keys
    ensures tree.rows == old(tree.rows) + [Row(e, numTracks, numTowers)]
  {
    BranchBuffers(tree.buffers, numTracks, numTowers);
    VariableListsArePlain();
    VariableListsDistinct();
    var k := 0;
    while k < |JetVariables|
      invariant 0 <= k <= |JetVariables| && tree.Valid() && tree.branches == old(tree.branches) && tree.rows == old(tree.rows)
      invariant tree.buffers.Keys == old(tree.buffers).Keys
      invariant forall j :: 0 <= j < k ==> tree.buffers[JetVariables[j]] == e.scalars[JetVariables[j]]
    {
      tree.Set(JetVariables[k], e.scalars[JetVariables[k]]);
      k := k + 1;
    }
    PadGroup(tree, e, TrackVariables, numTracks);
    forall j | 0 <= j < |JetVariables| ensures JetVariables[j] !in SlotNames(TrackVariables, SlotCount(numTracks)) {
      PlainNotSlot(JetVariables[j], TrackVariables, SlotCount(numTracks));
    }
    ghost var tracksDone := tree.buffers;
    PadGroup(tree, e, TowerVariables, numTowers);
    forall j | 0 <= j < |JetVariables| ensures JetVariables[j] !in SlotNames(TowerVariables, SlotCount(numTowers)) {
      PlainNotSlot(JetVariables[j], TowerVariables, SlotCount(numTowers));
    }
    ListsDisjoint();
    forall m, i | 0 <= m < |TrackVariables| && 0 <= i < SlotCount(numTracks)
      ensures Suffixed(TrackVariables[m], i) !in SlotNames(TowerVariables, SlotCount(numTowers))
    {
      InSlotNames(TrackVariables[m], i, TowerVariables, SlotCount(numTowers));
    }
    assert GroupHeld(tree.buffers, e, TrackVariables, SlotCount(numTracks));
    FilledRow(tree.buffers, e, numTracks, numTowers);
    tree.Fill();
  }

  /** The rows of the zero-padded tree, one per event. */
  function Rows(events: seq<Event>, numTracks: int, numTowers: int): (rows: seq<seq<real>>)
    requires forall j :: 0 <= j < |events| ==> HasBranches(events[j])
    ensures |rows| == |events| && forall j :: 0 <= j < |events| ==> rows[j] == Row(events[j], numTracks, numTowers)
  {
    seq(|events|, j requires 0 <= j < |events| => Row(events[j], numTracks, numTowers))
  }

  /** The tree `add_tree` writes: the fixed branches, and one padded row per event of the chain. */
  function PaddedTree(name: string, events: seq<Event>, numTracks: int, numTowers: int): Tree
    requires forall j :: 0 <= j < |events| ==> HasBranches(events[j])
  {
    Tree(name, BranchNames(numTracks, numTowers), Rows(events, numTracks, numTowers))
  }

  /** A ROOT file opened for writing, and the trees written to it so far. */
  class OutFile {
    const name: string
    var trees: seq<Tree>

    /** `ROOT.TFile(name, 'RECREATE')`: whatever the file held before is discarded. */
    constructor (name: string)
      ensures this.name == name && trees == []
    {
      this.name := name;
      trees := [];
    }

    /** `tree.Write()` with this file as the current directory. */
    method Write(t: Tree)
      modifies this
      ensures trees == old(trees) + [t]
    {
      trees := trees + [t];
    }
  }

  /**
   * `add_tree(output_file, tree_name, chain, num_towers, num_tracks)`:
   * creates the branches, fills one row per event of the chain and writes
   * the tree to the output file.
   */
  method AddTree(out: OutFile, treeName: string, chain: Chain, contents: map<string, seq<Event>>,
                 numTowers: int, numTracks: int)
    requires Readable(chain.files, contents)
    modifies out
    ensures out.trees == old(out.trees) + [PaddedTree(treeName, ChainEvents(chain.files, contents), numTracks, numTowers)]
  {
    var tree := new OutTree(treeName);
    AddBranches(tree, JetVariables);
    AddSlotBranches(tree, TrackVariables, numTracks);
    AddSlotBranches(tree, TowerVariables, numTowers);
    var events := ChainEvents(chain.files, contents);
    FillEvents(tree, events, numTracks, numTowers);
    assert tree.Snapshot() == PaddedTree(treeName, events, numTracks, numTowers);
    out.Write(tree.Snapshot());
  }

  /** Creates one branch for each name of `cs`, in order. */
  method AddBranches(tree: OutTree, cs: seq<string>)
    requires tree.Valid()
    modifies tree
    ensures tree.Valid() && tree.branches == old(tree.branches) + cs && tree.rows == old(tree.rows)
  {
    var k := 0;
    while k < |cs|
      invariant 0 <= k <= |cs| && tree.Valid() && tree.rows == old(tree.rows)
      invariant tree.branches == old(tree.branches) + cs[..k]
    {
      TakeSnoc(cs, k);
      tree.Branch(cs[k]);
      k := k + 1;
    }
    assert cs[..k] == cs;
  }

  /** Fills one row for each event of `events`, in order. */
  method FillEvents(tree: OutTree, events: seq<Event>, numTracks: int, numTowers: int)
    requires tree.Valid() && tree.branches == BranchNames(numTracks, numTowers)
    requires forall j :: 0 <= j < |events| ==> HasBranches(events[j])
    modifies tree
    ensures tree.Valid() && tree.branches == old(tree.branches)
    ensures tree.rows == old(tree.rows) + Rows(events, numTracks, numTowers)
  {
    var j := 0;
    while j < |events|
      invariant 0 <= j <= |events| && tree.Valid() && tree.branches == old(tree.branches)
      invariant tree.rows == old(tree.rows) + Rows(events[..j], numTracks, numTowers)
    {
      assert Rows(events[..j + 1], numTracks, numTowers) == Rows(events[..j], numTracks, numTowers) + [Row(events[j], numTracks, numTowers)];
      FillEvent(tree, events[j], numTracks, numTowers);
      j := j + 1;
    }
    assert events[..j] == events;
  }

  // ---------------------------------------------------------------------
  // The script
  // ---------------------------------------------------------------------

  /** The output file's name and the trees written to it. */
  datatype OutputFile = OutputFile(name: string, trees: seq<Tree>)

  /** The output of a run with valid arguments: the gluon tree, then the quark tree. */
  function Preprocessed(args: Args, contents: map<string, seq<Event>>): OutputFile
    requires Readable(FileList(args.gluons), contents) && Readable(FileList(args.quarks), contents)
  {
    OutputFile(args.output, [
      PaddedTree("gluons", ChainEvents(FileList(args.gluons), contents), args.tracks, args.towers),
      PaddedTree("quarks", ChainEvents(FileList(args.quarks), contents), args.tracks, args.towers)])
  }

  /**
   * The script: reads the arguments, chains the gluon and the quark files
   * and writes the two zero-padded trees. `contents` gives the events of
   * each input file's `treeJets` tree.
   */
  method PreprocessData(o: Options, contents: map<string, seq<Event>>) returns (r: Result<OutputFile>)
    requires ProcessArguments(o).Ok? ==>
      Readable(FileList(ProcessArguments(o).value.gluons), contents) && Readable(FileList(ProcessArguments(o).value.quarks), contents)
    ensures ProcessArguments(o).Error? ==> r == Error(ProcessArguments(o).msg)
    ensures ProcessArguments(o).Ok? ==> r == Ok(Preprocessed(ProcessArguments(o).value, contents))
  {
    var parsed := ProcessArguments(o);
    if parsed.Error? {
      return Error(parsed.msg);
    }
    var args := parsed.value;
    var gluons := CombineFiles(args.gluons, "treeJets");
    var quarks := CombineFiles(args.quarks, "treeJets");
    var output := new OutFile(args.output);
    AddTree(output, "gluons", gluons, contents, args.towers, args.tracks);
    ghost var g := output.trees[0];
    AddTree(output, "quarks", quarks, contents, args.towers, args.tracks);
    ghost var q := output.trees[1];
    assert g == PaddedTree("gluons", ChainEvents(FileList(args.gluons), contents), args.tracks, args.towers);
    assert q == PaddedTree("quarks", ChainEvents(FileList(args.quarks), contents), args.tracks, args.towers);
    assert output.trees == [g, q];
    ghost var expected := Preprocessed(args, contents);
    assert expected.trees == [g, q];
    assert output.name == args.output == expected.name;
    assert OutputFile(output.name, output.trees) == expected;
    r := Ok(OutputFile(output.name, output.trees));
  }
}
