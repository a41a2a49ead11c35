/**
 * tf_model2.py: the same feature list and batch plan as tf_model.py, with
 * the track and tower columns made relative to the jet before batching,
 * and class weights that balance signal against background in both
 * trainings.
 */
module TfModel2 {
  import opened Names
  import opened Frames
  import opened TfModel
  import CreateTrainingSamples

  // ---------------------------------------------------------------------
  // The jet-relative transform of batch_generator
  // ---------------------------------------------------------------------

  /** `df[column_i] -= df[jet]` or `df[column_i] /= df[jet]`, for every slot `i` of a group. */
  datatype Step = Subtract(column: string, jet: string) | Divide(column: string, jet: string)

  /** Per track slot: eta and phi relative to the jet axis, pT as a fraction of the jet's. */
  const TrackSteps: seq<Step> := [Subtract("trackEta", "jetEta"), Subtract("trackPhi", "jetPhi"), Divide("trackPt", "jetPt")]

  /** Per tower slot: eta relative to the jet axis, the energies as fractions of the jet pT; phi is left alone. */
  const TowerSteps: seq<Step> := [Subtract("towerEta", "jetEta"), Divide("towerE", "jetPt"), Divide("towerEem", "jetPt"), Divide("towerEhad", "jetPt")]

  /** The columns a group of steps changes, in order. */
  function Columns(g: seq<Step>): (cs: seq<string>)
    ensures |cs| == |g| && forall n :: 0 <= n < |g| ==> cs[n] == g[n].column
  {
    seq(|g|, n requires 0 <= n < |g| => g[n].column)
  }

  /** The steps change distinct columns, and all names are plain. */
  predicate Group(g: seq<Step>)
  {
    (forall n :: 0 <= n < |g| ==> PlainName(g[n].column) && PlainName(g[n].jet) && g[n].column != g[n].jet) &&
    (forall m, n :: 0 <= m < n < |g| ==> g[m].column != g[n].column)
  }

  predicate RealColumn(t: Table, c: string)
  {
    c in t.cols && t.cols[c].Reals? && |t.cols[c].xs| == t.nrows
  }

  predicate Nonzero(t: Table, c: string)
    requires RealColumn(t, c)
  {
    forall r :: 0 <= r < t.nrows ==> t.cols[c].xs[r] != 0.0
  }

  /** Both columns of the step exist and hold reals; a divisor is nonzero on every row. */
  predicate StepApplies(t: Table, s: Step, i: nat)
  {
    RealColumn(t, Suffixed(s.column, i)) && RealColumn(t, s.jet) && (s.Divide? ==> Nonzero(t, s.jet))
  }

  ghost predicate GroupApplies(t: Table, g: seq<Step>, width: nat)
  {
    WellFormed(t) && forall i, n :: 0 <= i < width && 0 <= n < |g| ==> StepApplies(t, g[n], i)
  }

  /** The column produced by step `s` on slot `i` of `t`. */
  function Applied(t: Table, s: Step, i: nat): (c: Column)
    requires StepApplies(t, s, i)
    ensures c.Reals? && |c.xs| == t.nrows
  {
    var xs, ys := t.cols[Suffixed(s.column, i)].xs, t.cols[s.jet].xs;
    match s
    case Subtract(_, _) => Reals(Minus(xs, ys))
    case Divide(_, _) => Reals(Over(xs, ys))
  }

  /** The steps of `g`, in order, on slot `i`. */
  function UpdateSlot(m: map<string, Column>, t: Table, g: seq<Step>, i: nat): map<string, Column>
    requires forall n :: 0 <= n < |g| ==> StepApplies(t, g[n], i)
  {
    if |g| == 0 then m
    else UpdateSlot(m, t, g[..|g| - 1], i)[Suffixed(g[|g| - 1].column, i) := Applied(t, g[|g| - 1], i)]
  }

  /** The loop `for i in range(width)` over the steps of `g`, its first `k` rounds. */
  function GroupSlots(m: map<string, Column>, t: Table, g: seq<Step>, k: nat): map<string, Column>
    requires GroupApplies(t, g, k)
  {
    if k == 0 then m else UpdateSlot(GroupSlots(m, t, g, k - 1), t, g, k - 1)
  }

  /** Slot `i` of a step's column holds what the step computes from `t`. */
  lemma {:induction false} UpdateSlotAt(m: map<string, Column>, t: Table, g: seq<Step>, i: nat, n: nat)
    requires Group(g) && n < |g| && forall k :: 0 <= k < |g| ==> StepApplies(t, g[k], i)
    ensures Suffixed(g[n].column, i) in UpdateSlot(m, t, g, i)
    ensures UpdateSlot(m, t, g, i)[Suffixed(g[n].column, i)] == Applied(t, g[n], i)
    decreases |g|
  {
    var last := |g| - 1;
    if n < last {
      if Suffixed(g[last].column, i) == Suffixed(g[n].column, i) {
        SuffixedInjective(g[last].column, i, g[n].column, i);
      }
      UpdateSlotAt(m, t, g[..last], i, n);
    }
  }

  /** A column that no step names on slot `i` keeps its value. */
  lemma {:induction false} UpdateSlotOther(m: map<string, Column>, t: Table, g: seq<Step>, i: nat, c: string)
    requires c in m && forall k :: 0 <= k < |g| ==> StepApplies(t, g[k], i) && c != Suffixed(g[k].column, i)
    ensures c in UpdateSlot(m, t, g, i) && UpdateSlot(m, t, g, i)[c] == m[c]
    decreases |g|
  {
    if |g| > 0 {
      UpdateSlotOther(m, t, g[..|g| - 1], i, c);
    }
  }

  /** The steps only replace columns that are there. */
  lemma {:induction false} UpdateSlotKeys(m: map<string, Column>, t: Table, g: seq<Step>, i: nat)
    requires forall k :: 0 <= k < |g| ==> StepApplies(t, g[k], i) && Suffixed(g[k].column, i) in m
    ensures UpdateSlot(m, t, g, i).Keys == m.Keys
    ensures forall c :: c in m && m[c].Reals? ==> UpdateSlot(m, t, g, i)[c].Reals?
    ensures forall c :: c in m && Length(m[c]) == t.nrows ==> Length(UpdateSlot(m, t, g, i)[c]) == t.nrows
    decreases |g|
  {
    if |g| > 0 {
      UpdateSlotKeys(m, t, g[..|g| - 1], i);
    }
  }

  /** After `k` rounds, slot `i < k` of every column of the group holds what its step computes from `t`. */
  lemma {:induction false} GroupSlotsAt(m: map<string, Column>, t: Table, g: seq<Step>, k: nat, i: nat, n: nat)
    requires Group(g) && GroupApplies(t, g, k) && i < k && n < |g|
    ensures Suffixed(g[n].column, i) in GroupSlots(m, t, g, k)
    ensures GroupSlots(m, t, g, k)[Suffixed(g[n].column, i)] == Applied(t, g[n], i)
  {
    if i == k - 1 {
      UpdateSlotAt(GroupSlots(m, t, g, k - 1), t, g, k - 1, n);
    } else {
      GroupSlotsAt(m, t, g, k - 1, i, n);
      var name := Suffixed(g[n].column, i);
      forall j | 0 <= j < |g| ensures name != Suffixed(g[j].column, k - 1) {
        if name == Suffixed(g[j].column, k - 1) {
          SuffixedInjective(g[n].column, i, g[j].column, k - 1);
        }
      }
      UpdateSlotOther(GroupSlots(m, t, g, k - 1), t, g, k - 1, name);
    }
  }

  /** A column that is no slot of the group keeps its value. */
  lemma {:induction false} GroupSlotsOther(m: map<string, Column>, t: Table, g: seq<Step>, k: nat, c: string)
    requires GroupApplies(t, g, k) && c in m && c !in SlotNames(Columns(g), k)
    ensures c in GroupSlots(m, t, g, k) && GroupSlots(m, t, g, k)[c] == m[c]
  {
    if k > 0 {
      GroupSlotsOther(m, t, g, k - 1, c);
      forall j | 0 <= j < |g| ensures c != Suffixed(g[j].column, k - 1) {
        assert Columns(g)[j] == g[j].column;
        assert Suffixed(Columns(g)[j], k - 1) in SlotNames(Columns(g), k);
      }
      UpdateSlotOther(GroupSlots(m, t, g, k - 1), t, g, k - 1, c);
    }
  }

  /** The rounds keep the column names, the real columns real and the column lengths. */
  lemma {:induction false} GroupSlotsKeys(m: map<string, Column>, t: Table, g: seq<Step>, k: nat)
    requires GroupApplies(t, g, k) && m.Keys == t.cols.Keys
    ensures GroupSlots(m, t, g, k).Keys == m.Keys
    ensures forall c :: c in m && m[c].Reals? ==> GroupSlots(m, t, g, k)[c].Reals?
    ensures forall c :: c in m && Length(m[c]) == t.nrows ==> Length(GroupSlots(m, t, g, k)[c]) == t.nrows
  {
    if k > 0 {
      GroupSlotsKeys(m, t, g, k - 1);
      forall n | 0 <= n < |g| ensures StepApplies(t, g[n], k - 1) && Suffixed(g[n].column, k - 1) in GroupSlots(m, t, g, k - 1) {
        assert StepApplies(t, g[n], k - 1);
      }
      UpdateSlotKeys(GroupSlots(m, t, g, k - 1), t, g, k - 1);
    }
  }

  /** No column of `g` is a column of `h`. */
  predicate Apart(g: seq<Step>, h: seq<Step>)
  {
    forall m, n :: 0 <= m < |g| && 0 <= n < |h| ==> g[m].column != h[n].column
  }

  /** A slot of a plain name that no step of `g` changes is no slot of `g`. */
  lemma NotSlotOf(c: string, i: nat, g: seq<Step>, width: nat)
    requires Group(g) && PlainName(c) && forall m :: 0 <= m < |g| ==> g[m].column != c
    ensures Suffixed(c, i) !in SlotNames(Columns(g), width)
  {
    InSlotNames(c, i, Columns(g), width);
  }

  /** The loop `for i in range(width)` over the steps of `g`, on the whole table. */
  function Pass(t: Table, g: seq<Step>, width: nat): (r: Table)
    requires GroupApplies(t, g, width)
    ensures WellFormed(r) && r.nrows == t.nrows && r.cols.Keys == t.cols.Keys
    ensures forall c :: c in t.cols && t.cols[c].Reals? ==> r.cols[c].Reals?
  {
    GroupSlotsKeys(t.cols, t, g, width);
    Table(t.nrows, GroupSlots(t.cols, t, g, width))
  }

  /** A column that is no slot of the pass keeps its value. */
  lemma PassOther(t: Table, g: seq<Step>, width: nat, c: string)
    requires GroupApplies(t, g, width) && c in t.cols && c !in SlotNames(Columns(g), width)
    ensures Pass(t, g, width).cols[c] == t.cols[c]
  {
    GroupSlotsOther(t.cols, t, g, width, c);
  }

  /** A pass over `g` leaves every column a pass over an apart group `h` reads. */
  lemma PassKeeps(t: Table, g: seq<Step>, wg: nat, h: seq<Step>, wh: nat)
    requires Group(g) && Group(h) && Apart(g, h) && GroupApplies(t, g, wg) && GroupApplies(t, h, wh)
    ensures GroupApplies(Pass(t, g, wg), h, wh)
    ensures forall i, n :: 0 <= i < wh && 0 <= n < |h| ==>
      StepApplies(t, h[n], i) && StepApplies(Pass(t, g, wg), h[n], i) &&
      Pass(t, g, wg).cols[Suffixed(h[n].column, i)] == t.cols[Suffixed(h[n].column, i)] &&
      Pass(t, g, wg).cols[h[n].jet] == t.cols[h[n].jet]
  {
    var r := Pass(t, g, wg);
    forall i, n | 0 <= i < wh && 0 <= n < |h|
      ensures StepApplies(t, h[n], i) && StepApplies(r, h[n], i)
      ensures r.cols[Suffixed(h[n].column, i)] == t.cols[Suffixed(h[n].column, i)] && r.cols[h[n].jet] == t.cols[h[n].jet]
    {
      var s := h[n];
      assert StepApplies(t, s, i);
      NotSlotOf(s.column, i, g, wg);
      PassOther(t, g, wg, Suffixed(s.column, i));
      PlainNotSlot(s.jet, Columns(g), wg);
      PassOther(t, g, wg, s.jet);
    }
  }

  /** After a pass over `g` and one over `h`, a slot of `g` holds what its step computes from the input. */
  lemma FirstGroupSlot(t: Table, g: seq<Step>, wg: nat, h: seq<Step>, wh: nat, i: nat, n: nat)
    requires Group(g) && Group(h) && Apart(g, h) && GroupApplies(t, g, wg) && GroupApplies(t, h, wh)
    requires i < wg && n < |g|
    ensures StepApplies(t, g[n], i) && GroupApplies(Pass(t, g, wg), h, wh)
    ensures Pass(Pass(t, g, wg), h, wh).cols[Suffixed(g[n].column, i)] == Applied(t, g[n], i)
  {
    PassKeeps(t, g, wg, h, wh);
    GroupSlotsAt(t.cols, t, g, wg, i, n);
    NotSlotOf(g[n].column, i, h, wh);
    PassOther(Pass(t, g, wg), h, wh, Suffixed(g[n].column, i));
  }

  /** After both passes, a slot of `h` holds what its step computes from the input. */
  lemma SecondGroupSlot(t: Table, g: seq<Step>, wg: nat, h: seq<Step>, wh: nat, i: nat, n: nat)
    requires Group(g) && Group(h) && Apart(g, h) && GroupApplies(t, g, wg) && GroupApplies(t, h, wh)
    requires i < wh && n < |h|
    ensures StepApplies(t, h[n], i) && GroupApplies(Pass(t, g, wg), h, wh)
    ensures Pass(Pass(t, g, wg), h, wh).cols[Suffixed(h[n].column, i)] == Applied(t, h[n], i)
  {
    PassKeeps(t, g, wg, h, wh);
    var r := Pass(t, g, wg);
    GroupSlotsAt(r.cols, r, h, wh, i, n);
    assert StepApplies(t, h[n], i) && StepApplies(r, h[n], i);
    assert r.cols[Suffixed(h[n].column, i)] == t.cols[Suffixed(h[n].column, i)] && r.cols[h[n].jet] == t.cols[h[n].jet];
  }

  /** After both passes, a column that is a slot of neither group keeps its value. */
  lemma BothPassesOther(t: Table, g: seq<Step>, wg: nat, h: seq<Step>, wh: nat, c: string)
    requires Group(g) && Group(h) && Apart(g, h) && GroupApplies(t, g, wg) && GroupApplies(t, h, wh)
    requires c in t.cols && c !in SlotNames(Columns(g), wg) && c !in SlotNames(Columns(h), wh)
    ensures GroupApplies(Pass(t, g, wg), h, wh)
    ensures Pass(Pass(t, g, wg), h, wh).cols[c] == t.cols[c]
  {
    PassKeeps(t, g, wg, h, wh);
    PassOther(t, g, wg, c);
    PassOther(Pass(t, g, wg), h, wh, c);
  }

  /** A step over plain names that changes a column other than the one it reads. */
  predicate PlainStep(s: Step)
  {
    PlainName(s.column) && PlainName(s.jet) && s.column != s.jet
  }

  lemma GroupOfThree(a: Step, b: Step, c: Step)
    requires PlainStep(a) && PlainStep(b) && PlainStep(c)
    requires a.column != b.column && a.column != c.column && b.column != c.column
    ensures Group([a, b, c])
  {
  }

  lemma GroupOfFour(a: Step, b: Step, c: Step, d: Step)
    requires PlainStep(a) && PlainStep(b) && PlainStep(c) && PlainStep(d)
    requires a.column != b.column && a.column != c.column && a.column != d.column
    requires b.column != c.column && b.column != d.column && c.column != d.column
    ensures Group([a, b, c, d])
  {
  }

  /** The track steps change distinct, plain columns by plain jet columns. */
  lemma TrackStepsGroup()
    ensures Group(TrackSteps)
  {
    GroupOfThree(Subtract("trackEta", "jetEta"), Subtract("trackPhi", "jetPhi"), Divide("trackPt", "jetPt"));
  }

  /** The tower steps change distinct, plain columns by plain jet columns. */
  lemma TowerStepsGroup()
    ensures Group(TowerSteps)
  {
    GroupOfFour(Subtract("towerEta", "jetEta"), Divide("towerE", "jetPt"), Divide("towerEem", "jetPt"), Divide("towerEhad", "jetPt"));
  }

  /** Track columns and tower columns differ in their second letter. */
  lemma StepsApart()
    ensures Apart(TrackSteps, TowerSteps)
  {
    forall m, n | 0 <= m < |TrackSteps| && 0 <= n < |TowerSteps| ensures TrackSteps[m].column != TowerSteps[n].column {
      assert TrackSteps[m].column[1] == 'r';
      assert TowerSteps[n].column[1] == 'o';
    }
  }

  lemma TrackColumns()
    ensures Columns(TrackSteps) == ["trackEta", "trackPhi", "trackPt"]
  {
  }

  lemma TowerColumns()
    ensures Columns(TowerSteps) == ["towerEta", "towerE", "towerEem", "towerEhad"]
  {
  }

  /** The table holds every column the transform reads, with a nonzero jet pT on every row. */
  ghost predicate Transformable(t: Table)
  {
    GroupApplies(t, TrackSteps, MaxTracks) && GroupApplies(t, TowerSteps, MaxTowers)
  }

  /** After the track loop the table still holds what the tower loop reads. */
  lemma TrackPassKeeps(t: Table)
    requires Transformable(t)
    ensures GroupApplies(Pass(t, TrackSteps, MaxTracks), TowerSteps, MaxTowers)
  {
    TrackStepsGroup();
    TowerStepsGroup();
    StepsApart();
    PassKeeps(t, TrackSteps, MaxTracks, TowerSteps, MaxTowers);
  }

  /** The table `batch_generator` batches: the track loop, then the tower loop. */
  function Transformed(t: Table): (r: Table)
    requires Transformable(t)
    ensures WellFormed(r) && r.nrows == t.nrows && r.cols.Keys == t.cols.Keys
    ensures forall c :: c in t.cols && t.cols[c].Reals? ==> r.cols[c].Reals?
  {
    TrackPassKeeps(t);
    Pass(Pass(t, TrackSteps, MaxTracks), TowerSteps, MaxTowers)
  }

  /**
   * The loop `for i in range(width)` of `batch_generator` over one group:
   * the statements of the round, in order, on the frame in place.
   */
  method TransformGroup(df: Frame, g: seq<Step>, width: nat)
    requires df.Valid() && Group(g) && GroupApplies(df.Snapshot(), g, width)
    modifies df
    ensures df.Valid() && df.Snapshot() == Pass(old(df.Snapshot()), g, width)
  {
    ghost var t := df.Snapshot();
    for i := 0 to width
      invariant df.Valid() && df.nrows == t.nrows
      invariant df.cols == GroupSlots(t.cols, t, g, i)
    {
      ghost var before := df.cols;
      for n := 0 to |g|
        invariant df.Valid() && df.nrows == t.nrows
        invariant df.cols == UpdateSlot(before, t, g[..n], i)
      {
        var s := g[n];
        var name := Suffixed(s.column, i);
        assert StepApplies(t, s, i) && GroupApplies(t, g, i);
        assert g[..n + 1][..n] == g[..n];
        assert name !in SlotNames(Columns(g), i) by {
          InSlotNames(s.column, i, Columns(g), i);
        }
        GroupSlotsOther(t.cols, t, g, i, name);
        assert s.jet !in SlotNames(Columns(g), i) by {
          PlainNotSlot(s.jet, Columns(g), i);
        }
        GroupSlotsOther(t.cols, t, g, i, s.jet);
        forall k | 0 <= k < n ensures StepApplies(t, g[..n][k], i) && name != Suffixed(g[..n][k].column, i)
                              && s.jet != Suffixed(g[..n][k].column, i) {
          if name == Suffixed(g[k].column, i) {
            SuffixedInjective(s.column, i, g[k].column, i);
          }
          SuffixedNotPlain(g[k].column, i, s.jet);
        }
        UpdateSlotOther(before, t, g[..n], i, name);
        UpdateSlotOther(before, t, g[..n], i, s.jet);
        if s.Subtract? {
          df.Subtract(name, s.jet);
        } else {
          df.Divide(name, s.jet);
        }
      }
      assert g[..|g|] == g;
    }
  }

  /** The two loops at the top of `batch_generator`, on the frame read from the pickle. */
  method TransformFrame(df: Frame)
    requires df.Valid() && Transformable(df.Snapshot())
    modifies df
    ensures df.Valid() && df.Snapshot() == Transformed(old(df.Snapshot()))
  {
    ghost var t := df.Snapshot();
    TrackStepsGroup();
    TowerStepsGroup();
    TransformGroup(df, TrackSteps, MaxTracks);
    TrackPassKeeps(t);
    TransformGroup(df, TowerSteps, MaxTowers);
  }

  // ---------------------------------------------------------------------
  // What the transform does to each column
  // ---------------------------------------------------------------------

  /** Slot `i` of a column of the track group holds what its step computes from the input. */
  lemma TrackSlot(t: Table, i: nat, n: nat)
    requires Transformable(t) && i < MaxTracks && n < |TrackSteps|
    ensures StepApplies(t, TrackSteps[n], i)
    ensures Transformed(t).cols[Suffixed(TrackSteps[n].column, i)] == Applied(t, TrackSteps[n], i)
  {
    TrackStepsGroup();
    TowerStepsGroup();
    StepsApart();
    FirstGroupSlot(t, TrackSteps, MaxTracks, TowerSteps, MaxTowers, i, n);
  }

  /** Slot `i` of a column of the tower group holds what its step computes from the input. */
  lemma TowerSlot(t: Table, i: nat, n: nat)
    requires Transformable(t) && i < MaxTowers && n < |TowerSteps|
    ensures StepApplies(t, TowerSteps[n], i)
    ensures Transformed(t).cols[Suffixed(TowerSteps[n].column, i)] == Applied(t, TowerSteps[n], i)
  {
    TrackStepsGroup();
    TowerStepsGroup();
    StepsApart();
    SecondGroupSlot(t, TrackSteps, MaxTracks, TowerSteps, MaxTowers, i, n);
  }

  /** Slot by slot and row by row: track eta and phi relative to the jet, pT over the jet pT. */
  lemma TrackValues(t: Table, i: nat, r: nat)
    requires Transformable(t) && i < MaxTracks && r < t.nrows
    ensures RealColumn(t, "jetEta") && RealColumn(t, "jetPhi") && RealColumn(t, "jetPt") && Nonzero(t, "jetPt")
    ensures RealColumn(t, Suffixed("trackEta", i)) && RealColumn(Transformed(t), Suffixed("trackEta", i))
    ensures RealColumn(t, Suffixed("trackPhi", i)) && RealColumn(Transformed(t), Suffixed("trackPhi", i))
    ensures RealColumn(t, Suffixed("trackPt", i)) && RealColumn(Transformed(t), Suffixed("trackPt", i))
    ensures Transformed(t).cols[Suffixed("trackEta", i)].xs[r] == t.cols[Suffixed("trackEta", i)].xs[r] - t.cols["jetEta"].xs[r]
    ensures Transformed(t).cols[Suffixed("trackPhi", i)].xs[r] == t.cols[Suffixed("trackPhi", i)].xs[r] - t.cols["jetPhi"].xs[r]
    ensures Transformed(t).cols[Suffixed("trackPt", i)].xs[r] == t.cols[Suffixed("trackPt", i)].xs[r] / t.cols["jetPt"].xs[r]
  {
    assert TrackSteps[0] == Subtract("trackEta", "jetEta");
    assert TrackSteps[1] == Subtract("trackPhi", "jetPhi");
    assert TrackSteps[2] == Divide("trackPt", "jetPt");
    TrackSlot(t, i, 0);
    TrackSlot(t, i, 1);
    TrackSlot(t, i, 2);
  }

  /** Tower eta relative to the jet, the three tower energies over the jet pT. */
  lemma TowerValues(t: Table, i: nat, r: nat)
    requires Transformable(t) && i < MaxTowers && r < t.nrows
    ensures RealColumn(t, "jetEta") && RealColumn(t, "jetPt") && Nonzero(t, "jetPt")
    ensures RealColumn(t, Suffixed("towerEta", i)) && RealColumn(Transformed(t), Suffixed("towerEta", i))
    ensures RealColumn(t, Suffixed("towerE", i)) && RealColumn(Transformed(t), Suffixed("towerE", i))
    ensures RealColumn(t, Suffixed("towerEem", i)) && RealColumn(Transformed(t), Suffixed("towerEem", i))
    ensures RealColumn(t, Suffixed("towerEhad", i)) && RealColumn(Transformed(t), Suffixed("towerEhad", i))
    ensures Transformed(t).cols[Suffixed("towerEta", i)].xs[r] == t.cols[Suffixed("towerEta", i)].xs[r] - t.cols["jetEta"].xs[r]
    ensures Transformed(t).cols[Suffixed("towerE", i)].xs[r] == t.cols[Suffixed("towerE", i)].xs[r] / t.cols["jetPt"].xs[r]
    ensures Transformed(t).cols[Suffixed("towerEem", i)].xs[r] == t.cols[Suffixed("towerEem", i)].xs[r] / t.cols["jetPt"].xs[r]
    ensures Transformed(t).cols[Suffixed("towerEhad", i)].xs[r] == t.cols[Suffixed("towerEhad", i)].xs[r] / t.cols["jetPt"].xs[r]
  {
    assert TowerSteps[0] == Subtract("towerEta", "jetEta");
    assert TowerSteps[1] == Divide("towerE", "jetPt");
    assert TowerSteps[2] == Divide("towerEem", "jetPt");
    assert TowerSteps[3] == Divide("towerEhad", "jetPt");
    TowerSlot(t, i, 0);
    TowerSlot(t, i, 1);
    TowerSlot(t, i, 2);
    TowerSlot(t, i, 3);
  }

  /** Every column that is not a shifted or scaled slot keeps its values. */
  lemma Untouched(t: Table, c: string)
    requires Transformable(t) && c in t.cols
    requires c !in SlotNames(Columns(TrackSteps), MaxTracks) && c !in SlotNames(Columns(TowerSteps), MaxTowers)
    ensures Transformed(t).cols[c] == t.cols[c]
  {
    TrackStepsGroup();
    TowerStepsGroup();
    StepsApart();
    BothPassesOther(t, TrackSteps, MaxTracks, TowerSteps, MaxTowers, c);
  }

  /**
   * Those are the jet scalars, `ntracks` and `ntowers`, every `trackCharge_i`
   * and every `towerPhi_i`: tower phi is not shifted by the jet phi.
   */
  lemma UntouchedColumns(i: nat, k: nat)
    ensures k < |JetVariables| ==>
      JetVariables[k] !in SlotNames(Columns(TrackSteps), MaxTracks) && JetVariables[k] !in SlotNames(Columns(TowerSteps), MaxTowers)
    ensures Suffixed("trackCharge", i) !in SlotNames(Columns(TrackSteps), MaxTracks)
    ensures Suffixed("trackCharge", i) !in SlotNames(Columns(TowerSteps), MaxTowers)
    ensures Suffixed("towerPhi", i) !in SlotNames(Columns(TrackSteps), MaxTracks)
    ensures Suffixed("towerPhi", i) !in SlotNames(Columns(TowerSteps), MaxTowers)
  {
    TrackStepsGroup();
    TowerStepsGroup();
    VariableListsArePlain();
    if k < |JetVariables| {
      PlainNotSlot(JetVariables[k], Columns(TrackSteps), MaxTracks);
      PlainNotSlot(JetVariables[k], Columns(TowerSteps), MaxTowers);
    }
    forall m | 0 <= m < |TrackSteps| ensures TrackSteps[m].column != "trackCharge" && TrackSteps[m].column != "towerPhi" {
      assert TrackSteps[m].column[1] == 'r' && TrackSteps[m].column[5] != 'C';
    }
    forall m | 0 <= m < |TowerSteps| ensures TowerSteps[m].column != "trackCharge" && TowerSteps[m].column != "towerPhi" {
      assert TowerSteps[m].column[1] == 'o' && TowerSteps[m].column[5] == 'E';
    }
    NotSlotOf("trackCharge", i, TrackSteps, MaxTracks);
    NotSlotOf("trackCharge", i, TowerSteps, MaxTowers);
    NotSlotOf("towerPhi", i, TrackSteps, MaxTracks);
    NotSlotOf("towerPhi", i, TowerSteps, MaxTowers);
  }

  lemma ZeroOver(x: real)
    requires x != 0.0
    ensures 0.0 / x == 0.0
  {
  }

  /**
   * A zero-padded track slot: its pT stays 0, while its eta and phi become
   * the negated jet eta and phi.
   */
  lemma PaddedTrackSlot(t: Table, i: nat, r: nat)
    requires Transformable(t) && i < MaxTracks && r < t.nrows
    ensures RealColumn(t, "jetEta") && RealColumn(t, "jetPhi")
    ensures RealColumn(t, Suffixed("trackEta", i)) && RealColumn(Transformed(t), Suffixed("trackEta", i))
    ensures RealColumn(t, Suffixed("trackPhi", i)) && RealColumn(Transformed(t), Suffixed("trackPhi", i))
    ensures RealColumn(t, Suffixed("trackPt", i)) && RealColumn(Transformed(t), Suffixed("trackPt", i))
    ensures t.cols[Suffixed("trackPt", i)].xs[r] == 0.0 ==> Transformed(t).cols[Suffixed("trackPt", i)].xs[r] == 0.0
    ensures t.cols[Suffixed("trackEta", i)].xs[r] == 0.0 ==> Transformed(t).cols[Suffixed("trackEta", i)].xs[r] == -t.cols["jetEta"].xs[r]
    ensures t.cols[Suffixed("trackPhi", i)].xs[r] == 0.0 ==> Transformed(t).cols[Suffixed("trackPhi", i)].xs[r] == -t.cols["jetPhi"].xs[r]
  {
    TrackValues(t, i, r);
    ZeroOver(t.cols["jetPt"].xs[r]);
  }

  /** A zero-padded tower slot: its energies stay 0, while its eta becomes the negated jet eta. */
  lemma PaddedTowerSlot(t: Table, i: nat, r: nat)
    requires Transformable(t) && i < MaxTowers && r < t.nrows
    ensures RealColumn(t, "jetEta")
    ensures RealColumn(t, Suffixed("towerEta", i)) && RealColumn(Transformed(t), Suffixed("towerEta", i))
    ensures RealColumn(t, Suffixed("towerE", i)) && RealColumn(Transformed(t), Suffixed("towerE", i))
    ensures RealColumn(t, Suffixed("towerEem", i)) && RealColumn(Transformed(t), Suffixed("towerEem", i))
    ensures RealColumn(t, Suffixed("towerEhad", i)) && RealColumn(Transformed(t), Suffixed("towerEhad", i))
    ensures t.cols[Suffixed("towerEta", i)].xs[r] == 0.0 ==> Transformed(t).cols[Suffixed("towerEta", i)].xs[r] == -t.cols["jetEta"].xs[r]
    ensures t.cols[Suffixed("towerE", i)].xs[r] == 0.0 ==> Transformed(t).cols[Suffixed("towerE", i)].xs[r] == 0.0
    ensures t.cols[Suffixed("towerEem", i)].xs[r] == 0.0 ==> Transformed(t).cols[Suffixed("towerEem", i)].xs[r] == 0.0
    ensures t.cols[Suffixed("towerEhad", i)].xs[r] == 0.0 ==> Transformed(t).cols[Suffixed("towerEhad", i)].xs[r] == 0.0
  {
    TowerValues(t, i, r);
    ZeroOver(t.cols["jetPt"].xs[r]);
  }

  /** The transform keeps what `Epoch` reads: real features and the boolean target. */
  lemma TransformedReadable(t: Table, features: seq<string>, target: string)
    requires Transformable(t) && Readable(t, features, target)
    ensures Readable(Transformed(t), features, target)
    ensures Transformed(t).cols[target] == t.cols[target]
  {
    forall c, i | c in Columns(TrackSteps) && 0 <= i < MaxTracks ensures target != Suffixed(c, i) {
      var n :| 0 <= n < |TrackSteps| && Columns(TrackSteps)[n] == c;
      assert StepApplies(t, TrackSteps[n], i);
    }
    forall c, i | c in Columns(TowerSteps) && 0 <= i < MaxTowers ensures target != Suffixed(c, i) {
      var n :| 0 <= n < |TowerSteps| && Columns(TowerSteps)[n] == c;
      assert StepApplies(t, TowerSteps[n], i);
    }
    Untouched(t, target);
  }

  /** The batch at `pos` of the transformed table. */
  function TransformedBatch(t: Table, features: seq<string>, target: string, pos: nat, batchSize: nat): (b: Batch)
    requires Transformable(t) && Readable(t, features, target) && pos + batchSize <= t.nrows
    ensures |b.x| == batchSize && |b.y| == batchSize
  {
    TransformedReadable(t, features, target);
    MakeBatch(Transformed(t), features, target, pos, batchSize)
  }

  /**
   * `batch_generator(filename, target, batch_size)` of this script, one
   * pass: the table is transformed in place, then batched as in tf_model.py.
   */
  method BatchGenerator(t: Table, target: string, batchSize: nat) returns (batches: seq<Batch>)
    requires Transformable(t) && Readable(t, Variables, target) && batchSize > 0
    ensures |batches| == |BatchStarts(t.nrows, batchSize)|
    ensures forall j :: 0 <= j < |batches| ==> j * batchSize + batchSize + 1 < t.nrows
    ensures forall j :: 0 <= j < |batches| ==> batches[j] == TransformedBatch(t, Variables, target, j * batchSize, batchSize)
  {
    var df := new Frame.Read(t);
    TransformFrame(df);
    TransformedReadable(t, Variables, target);
    batches := Epoch(df.Snapshot(), Variables, target, batchSize);
  }

  /** The batch size both generators of this script are created with. */
  const BatchSize: nat := 200

  /**
   * `batch_generator('boost_training_sample.pickle', 'is_data', 200)`, one
   * pass: batches of 200 consecutive rows of the transformed boost sample,
   * none when it has at most 201 rows and otherwise between 2 and 201 final
   * rows never read; the labels are the untransformed `is_data` flags.
   */
  method BoostBatches(t: Table) returns (batches: seq<Batch>)
    requires Transformable(t) && Readable(t, Variables, CreateTrainingSamples.IsData)
    ensures |batches| == 0 <==> t.nrows <= BatchSize + 1
    ensures t.nrows > BatchSize + 1 ==> 2 <= t.nrows - |batches| * BatchSize <= BatchSize + 1
    ensures forall j :: 0 <= j < |batches| ==>
      batches[j] == TransformedBatch(t, Variables, CreateTrainingSamples.IsData, j * BatchSize, BatchSize) &&
      |batches[j].x| == BatchSize && |batches[j].y| == BatchSize && j * BatchSize + BatchSize + 1 < t.nrows
    ensures forall j, r :: 0 <= j < |batches| && 0 <= r < BatchSize ==>
      batches[j].y[r] == [Label(t.cols[CreateTrainingSamples.IsData].bs[j * BatchSize + r])]
  {
    batches := BatchGenerator(t, CreateTrainingSamples.IsData, BatchSize);
    BatchCount(t.nrows, BatchSize);
    TransformedReadable(t, Variables, CreateTrainingSamples.IsData);
  }

  /**
   * `batch_generator('inference_training_sample.pickle', 'is_quark', 200)`,
   * one pass over the transformed inference sample, batched as the boost
   * sample is and labelled by the untransformed `is_quark` flags.
   */
  method InferenceBatches(t: Table) returns (batches: seq<Batch>)
    requires Transformable(t) && Readable(t, Variables, CreateTrainingSamples.IsQuark)
    ensures |batches| == 0 <==> t.nrows <= BatchSize + 1
    ensures t.nrows > BatchSize + 1 ==> 2 <= t.nrows - |batches| * BatchSize <= BatchSize + 1
    ensures forall j :: 0 <= j < |batches| ==>
      batches[j] == TransformedBatch(t, Variables, CreateTrainingSamples.IsQuark, j * BatchSize, BatchSize) &&
      |batches[j].x| == BatchSize && |batches[j].y| == BatchSize && j * BatchSize + BatchSize + 1 < t.nrows
    ensures forall j, r :: 0 <= j < |batches| && 0 <= r < BatchSize ==>
      batches[j].y[r] == [Label(t.cols[CreateTrainingSamples.IsQuark].bs[j * BatchSize + r])]
  {
    batches := BatchGenerator(t, CreateTrainingSamples.IsQuark, BatchSize);
    BatchCount(t.nrows, BatchSize);
    TransformedReadable(t, Variables, CreateTrainingSamples.IsQuark);
  }

  // ---------------------------------------------------------------------
  // Class weights
  // ---------------------------------------------------------------------

  /**
   * `w = 1/2 * (1 + N_other / N_own)`: the weight that gives a class with
   * share `nOwn` the same total weight as the class with share `nOther`.
   */
  function BalanceWeight(nOwn: real, nOther: real): (w: real)
    requires nOwn > 0.0 && nOther > 0.0
    ensures w > 0.0 && nOwn * w == (nOwn + nOther) / 2.0
  {
    0.5 * (1.0 + nOther / nOwn)
  }

  /** Both classes weigh the same once balanced. */
  lemma Balanced(nS: real, nB: real)
    requires nS > 0.0 && nB > 0.0
    ensures nS * BalanceWeight(nS, nB) == nB * BalanceWeight(nB, nS)
  {
  }

  /** Boost training: `is_data` (the modified sample, 29%) against the standard sample (71%). */
  function BoostClassWeight(y: real): real
  {
    if y == 1.0 then 0.5 * (0.71 / 0.29 + 1.0) else 0.5 * (0.29 / 0.71 + 1.0)
  }

  /** Inference training: quarks (71%) against gluons (29%). */
  function InferenceClassWeight(y: real): real
  {
    if y == 1.0 then 0.5 * (0.29 / 0.71 + 1.0) else 0.5 * (0.71 / 0.29 + 1.0)
  }

  /**
   * The script's constants are the balance weights for those shares, so each
   * class carries half the total weight; the inference weights are the boost
   * weights with the labels swapped.
   */
  lemma ClassWeightFacts()
    ensures BoostClassWeight(1.0) == BalanceWeight(0.29, 0.71) && BoostClassWeight(0.0) == BalanceWeight(0.71, 0.29)
    ensures InferenceClassWeight(1.0) == BalanceWeight(0.71, 0.29) && InferenceClassWeight(0.0) == BalanceWeight(0.29, 0.71)
    ensures 0.29 * BoostClassWeight(1.0) == 0.71 * BoostClassWeight(0.0) == 0.5
    ensures 0.71 * InferenceClassWeight(1.0) == 0.29 * InferenceClassWeight(0.0) == 0.5
    ensures InferenceClassWeight(1.0) == BoostClassWeight(0.0) && InferenceClassWeight(0.0) == BoostClassWeight(1.0)
  {
  }

  /** `np.where(batch_ys[:, 0] == 1, w_data, w_standard) * np.ones(len(batch_ys))`. */
  function BoostTrainingWeights(ys: seq<seq<real>>): (ws: seq<real>)
    requires forall k :: 0 <= k < |ys| ==> |ys[k]| == 1
    ensures |ws| == |ys|
  {
    seq(|ys|, k requires 0 <= k < |ys| => BoostClassWeight(ys[k][0]) * 1.0)
  }

  /**
   * The weights of the inference training: the boost weight of the event
   * (or 1 without boost) times the class weight of its label.
   */
  function InferenceWeights(useBoost: bool, ps: seq<real>, ys: seq<seq<real>>): (ws: seq<real>)
    requires forall k :: 0 <= k < |ys| ==> |ys[k]| == 1
    requires useBoost ==> |ps| == |ys| && forall k :: 0 <= k < |ps| ==> 0.0 <= ps[k] <= 1.0
    ensures |ws| == |ys|
    ensures forall k :: 0 <= k < |ys| ==> ws[k] > 0.0
  {
    var boost := BatchWeights(useBoost, ps, |ys|);
    seq(|ys|, k requires 0 <= k < |ys| => InferenceClassWeight(ys[k][0]) * boost[k])
  }

  /** The inference weight of one event, with and without boost. */
  lemma InferenceWeightOf(useBoost: bool, ps: seq<real>, ys: seq<seq<real>>, k: nat)
    requires forall k :: 0 <= k < |ys| ==> |ys[k]| == 1
    requires useBoost ==> |ps| == |ys| && forall k :: 0 <= k < |ps| ==> 0.0 <= ps[k] <= 1.0
    requires k < |ys|
    ensures useBoost ==> InferenceWeights(useBoost, ps, ys)[k] == InferenceClassWeight(ys[k][0]) * BoostWeight(ps[k])
    ensures !useBoost ==> InferenceWeights(useBoost, ps, ys)[k] == InferenceClassWeight(ys[k][0])
  {
  }

  /** The number of events with label `y == 1` (`positive`) or `y != 1`. */
  function CountLabel(ys: seq<seq<real>>, positive: bool): nat
    requires forall k :: 0 <= k < |ys| ==> |ys[k]| == 1
  {
    if |ys| == 0 then 0
    else CountLabel(ys[..|ys| - 1], positive) + (if (ys[|ys| - 1][0] == 1.0) == positive then 1 else 0)
  }

  /** The total weight of those events. */
  function WeightOf(ys: seq<seq<real>>, ws: seq<real>, positive: bool): real
    requires |ws| == |ys| && forall k :: 0 <= k < |ys| ==> |ys[k]| == 1
  {
    if |ys| == 0 then 0.0
    else WeightOf(ys[..|ys| - 1], ws[..|ws| - 1], positive) + (if (ys[|ys| - 1][0] == 1.0) == positive then ws[|ws| - 1] else 0.0)
  }

  /** Events of a class that all carry weight `w` weigh `w` times their number. */
  lemma {:induction false} WeightOfConstant(ys: seq<seq<real>>, ws: seq<real>, positive: bool, w: real)
    requires |ws| == |ys| && forall k :: 0 <= k < |ys| ==> |ys[k]| == 1
    requires forall k :: 0 <= k < |ys| && (ys[k][0] == 1.0) == positive ==> ws[k] == w
    ensures WeightOf(ys, ws, positive) == CountLabel(ys, positive) as real * w
  {
    if |ys| > 0 {
      WeightOfConstant(ys[..|ys| - 1], ws[..|ws| - 1], positive, w);
    }
  }

  /**
   * A boost batch with data and standard events in the ratio 29 : 71 weighs
   * as much in data as in standard events.
   */
  lemma BoostBatchBalanced(ys: seq<seq<real>>)
    requires forall k :: 0 <= k < |ys| ==> |ys[k]| == 1
    requires CountLabel(ys, true) as real * 0.71 == CountLabel(ys, false) as real * 0.29
    ensures WeightOf(ys, BoostTrainingWeights(ys), true) == WeightOf(ys, BoostTrainingWeights(ys), false)
  {
    var ws := BoostTrainingWeights(ys);
    WeightOfConstant(ys, ws, true, BoostClassWeight(1.0));
    WeightOfConstant(ys, ws, false, BoostClassWeight(0.0));
    ClassWeightFacts();
    var nd, ns := CountLabel(ys, true) as real, CountLabel(ys, false) as real;
    assert nd * BoostClassWeight(1.0) * 0.29 == nd * 0.5;
    assert ns * BoostClassWeight(0.0) * 0.71 == ns * 0.5;
  }

  /**
   * Without boost, an inference batch with quarks and gluons in the ratio
   * 71 : 29 weighs as much in quarks as in gluons.
   */
  lemma InferenceBatchBalanced(ys: seq<seq<real>>)
    requires forall k :: 0 <= k < |ys| ==> |ys[k]| == 1
    requires CountLabel(ys, true) as real * 0.29 == CountLabel(ys, false) as real * 0.71
    ensures WeightOf(ys, InferenceWeights(false, [], ys), true) == WeightOf(ys, InferenceWeights(false, [], ys), false)
  {
    var ws := InferenceWeights(false, [], ys);
    WeightOfConstant(ys, ws, true, InferenceClassWeight(1.0));
    WeightOfConstant(ys, ws, false, InferenceClassWeight(0.0));
    ClassWeightFacts();
    var nq, ng := CountLabel(ys, true) as real, CountLabel(ys, false) as real;
    assert nq * InferenceClassWeight(1.0) * 0.71 == nq * 0.5;
    assert ng * InferenceClassWeight(0.0) * 0.29 == ng * 0.5;
  }

  // ---------------------------------------------------------------------
  // Training loops
  // ---------------------------------------------------------------------

  const Iterations2: nat := 1000000

  /**
   * The boost loop runs `n_iterations // 10` steps but tests `step + 1`
   * against `n_iterations`, which it never reaches: it saves after each
   * 10000 steps only, 10 times, the last after its final step.
   */
  lemma BoostSchedule()
    ensures forall s: nat :: s < Iterations2 / 10 ==> (Saves(s, Iterations2) <==> (s + 1) % SaveEvery == 0)
    ensures |Saved(Iterations2 / 10, Iterations2)| == 10 && Saved(Iterations2 / 10, Iterations2)[9] == Iterations2 / 10 - 1
    ensures |Logged(Iterations2 / 10)| == 200
  {
    SavedCount(10, Iterations2);
    LoggedCount(Iterations2 / 10);
  }

  /** The inference loop: 100 checkpoints, the last after step 999999, and 2000 log lines. */
  lemma InferenceSchedule()
    ensures |Saved(Iterations2, Iterations2)| == 100 && Saved(Iterations2, Iterations2)[99] == Iterations2 - 1
    ensures |Logged(Iterations2)| == 2000
  {
    SavedCount(100, Iterations2);
    LoggedCount(Iterations2);
  }
}
