/**
 * create_training_samples.py: the four flattened samples (quarks and gluons,
 * each from the standard and from the modified simulation) are labelled and
 * concatenated into the three pickles the networks use:
 *   `boost_training_sample.pickle`, standard against modified events (`is_data`);
 *   `inference_training_sample.pickle`, standard quarks against standard gluons (`is_quark`);
 *   `inference_test_sample.pickle`, modified quarks against modified gluons (`is_quark`).
 */
module CreateTrainingSamples {
  import opened Frames

  const IsData := "is_data"
  const IsQuark := "is_quark"

  /** The table after `df[name] = b`: every row gets `b` under `name`, the other columns stay. */
  function WithLabel(t: Table, name: string, b: bool): (r: Table)
    ensures r.nrows == t.nrows && r.cols.Keys == t.cols.Keys + {name}
    ensures r.cols[name] == Constant(b, t.nrows)
    ensures forall c :: c in t.cols && c != name ==> r.cols[c] == t.cols[c]
  {
    Table(t.nrows, t.cols[name := Constant(b, t.nrows)])
  }

  /** The table after `del df[name]`. */
  function Without(t: Table, name: string): (r: Table)
    ensures r.nrows == t.nrows && r.cols.Keys == t.cols.Keys - {name}
    ensures forall c :: c in r.cols ==> r.cols[c] == t.cols[c]
  {
    Table(t.nrows, t.cols - {name})
  }

  /** Labelling and then deleting the label gives the table without that column back. */
  lemma LabelRemoved(t: Table, name: string, b: bool)
    ensures Without(WithLabel(t, name, b), name) == Without(t, name)
    ensures name !in t.cols ==> Without(WithLabel(t, name, b), name) == t
  {
    assert Without(WithLabel(t, name, b), name).cols == Without(t, name).cols;
    if name !in t.cols {
      assert t.cols - {name} == t.cols;
    }
  }

  /** Labelling keeps two tables of the same schema of the same schema. */
  lemma LabelsKeepSchema(a: Table, b: Table, name: string, x: bool, y: bool)
    requires SameSchema(a, b)
    ensures SameSchema(WithLabel(a, name, x), WithLabel(b, name, y))
    ensures SameSchema(Without(a, name), Without(b, name))
  {
  }

  lemma SchemaTransitive(a: Table, b: Table, c: Table)
    requires SameSchema(a, b) && SameSchema(b, c)
    ensures SameSchema(a, c)
  {
  }

  /** A concatenation has the schema of its parts. */
  lemma ConcatSchema(a: Table, b: Table, c: Table)
    requires SameSchema(a, b) && SameSchema(a, c)
    ensures SameSchema(Concat(a, b), c)
  {
    SchemaTransitive(Concat(a, b), a, c);
  }

  /** Labelling and deleting keep one entry per row. */
  lemma LabelsKeepWellFormed(t: Table, name: string, b: bool)
    requires WellFormed(t)
    ensures WellFormed(WithLabel(t, name, b)) && WellFormed(Without(t, name))
  {
  }

  /** The four samples share their columns, each holding one entry per row. */
  ghost predicate Compatible(qs: Table, qm: Table, gs: Table, gm: Table)
  {
    WellFormed(qs) && WellFormed(qm) && WellFormed(gs) && WellFormed(gm) &&
    SameSchema(qs, qm) && SameSchema(qs, gs) && SameSchema(qs, gm) && SameSchema(qm, gm)
  }

  /** The labelled samples can be concatenated in the order of the boost sample. */
  lemma BoostSampleSchema(qs: Table, qm: Table, gs: Table, gm: Table)
    requires Compatible(qs, qm, gs, gm)
    ensures var a, b, c, d := WithLabel(qs, IsData, false), WithLabel(qm, IsData, true), WithLabel(gs, IsData, false), WithLabel(gm, IsData, true);
      WellFormed(a) && WellFormed(b) && WellFormed(c) && WellFormed(d) &&
      SameSchema(a, b) && SameSchema(Concat(a, b), c) && SameSchema(Concat(Concat(a, b), c), d)
  {
    var a, b, c, d := WithLabel(qs, IsData, false), WithLabel(qm, IsData, true), WithLabel(gs, IsData, false), WithLabel(gm, IsData, true);
    LabelsKeepWellFormed(qs, IsData, false);
    LabelsKeepWellFormed(qm, IsData, true);
    LabelsKeepWellFormed(gs, IsData, false);
    LabelsKeepWellFormed(gm, IsData, true);
    LabelsKeepSchema(qs, qm, IsData, false, true);
    LabelsKeepSchema(qs, gs, IsData, false, false);
    LabelsKeepSchema(qs, gm, IsData, false, true);
    ConcatSchema(a, b, c);
    ConcatSchema(a, b, d);
    ConcatSchema(Concat(a, b), c, d);
  }

  /** Without `is_data`, the samples still share their columns. */
  lemma InferenceInputs(qs: Table, qm: Table, gs: Table, gm: Table)
    requires Compatible(qs, qm, gs, gm)
    ensures WellFormed(Without(qs, IsData)) && WellFormed(Without(qm, IsData))
    ensures WellFormed(Without(gs, IsData)) && WellFormed(Without(gm, IsData))
    ensures SameSchema(Without(qs, IsData), Without(gs, IsData)) && SameSchema(Without(qm, IsData), Without(gm, IsData))
  {
    LabelsKeepWellFormed(qs, IsData, false);
    LabelsKeepWellFormed(qm, IsData, true);
    LabelsKeepWellFormed(gs, IsData, false);
    LabelsKeepWellFormed(gm, IsData, true);
    LabelsKeepSchema(qs, gs, IsData, false, false);
    LabelsKeepSchema(qs, qm, IsData, false, false);
    LabelsKeepSchema(qm, gm, IsData, false, false);
  }

  /** `pandas.concat([df_qs, df_qm, df_gs, df_gm])`, each labelled with `is_data`. */
  function BoostSample(qs: Table, qm: Table, gs: Table, gm: Table): (r: Table)
    requires Compatible(qs, qm, gs, gm)
    ensures WellFormed(r) && r.nrows == qs.nrows + qm.nrows + gs.nrows + gm.nrows
  {
    var a, b, c, d := WithLabel(qs, IsData, false), WithLabel(qm, IsData, true), WithLabel(gs, IsData, false), WithLabel(gm, IsData, true);
    BoostSampleSchema(qs, qm, gs, gm);
    Concat(Concat(Concat(a, b), c), d)
  }

  /**
   * `pandas.concat([signal, background])` once `is_data` is deleted from both
   * and `is_quark` assigned True and False.
   */
  function InferenceSample(signal: Table, background: Table): (r: Table)
    requires WellFormed(signal) && WellFormed(background) && SameSchema(signal, background)
    ensures WellFormed(r) && r.nrows == signal.nrows + background.nrows
  {
    var a, b := Without(signal, IsData), Without(background, IsData);
    LabelsKeepWellFormed(signal, IsData, false);
    LabelsKeepWellFormed(background, IsData, false);
    LabelsKeepSchema(signal, background, IsData, false, false);
    LabelsKeepWellFormed(a, IsQuark, true);
    LabelsKeepWellFormed(b, IsQuark, false);
    LabelsKeepSchema(a, b, IsQuark, true, false);
    Concat(WithLabel(a, IsQuark, true), WithLabel(b, IsQuark, false))
  }

  /** The three pickles the script writes. */
  datatype Samples = Samples(boost: Table, training: Table, test: Table)

  /** `df_1[name] = b_1` ... `df_4[name] = b_4` on four distinct frames. */
  method AssignEach(df1: Frame, df2: Frame, df3: Frame, df4: Frame, name: string, b1: bool, b2: bool, b3: bool, b4: bool)
    requires df1.Valid() && df2.Valid() && df3.Valid() && df4.Valid()
    requires df1 != df2 && df1 != df3 && df1 != df4 && df2 != df3 && df2 != df4 && df3 != df4
    modifies df1, df2, df3, df4
    ensures df1.Valid() && df2.Valid() && df3.Valid() && df4.Valid()
    ensures df1.Snapshot() == WithLabel(old(df1.Snapshot()), name, b1)
    ensures df2.Snapshot() == WithLabel(old(df2.Snapshot()), name, b2)
    ensures df3.Snapshot() == WithLabel(old(df3.Snapshot()), name, b3)
    ensures df4.Snapshot() == WithLabel(old(df4.Snapshot()), name, b4)
  {
    df1.AssignConstant(name, b1);
    df2.AssignConstant(name, b2);
    df3.AssignConstant(name, b3);
    df4.AssignConstant(name, b4);
  }

  /** `del df_1[name]` ... `del df_4[name]` on four distinct frames. */
  method DeleteEach(df1: Frame, df2: Frame, df3: Frame, df4: Frame, name: string)
    requires df1.Valid() && df2.Valid() && df3.Valid() && df4.Valid()
    requires name in df1.cols && name in df2.cols && name in df3.cols && name in df4.cols
    requires df1 != df2 && df1 != df3 && df1 != df4 && df2 != df3 && df2 != df4 && df3 != df4
    modifies df1, df2, df3, df4
    ensures df1.Valid() && df2.Valid() && df3.Valid() && df4.Valid()
    ensures df1.Snapshot() == Without(old(df1.Snapshot()), name)
    ensures df2.Snapshot() == Without(old(df2.Snapshot()), name)
    ensures df3.Snapshot() == Without(old(df3.Snapshot()), name)
    ensures df4.Snapshot() == Without(old(df4.Snapshot()), name)
  {
    df1.Delete(name);
    df2.Delete(name);
    df3.Delete(name);
    df4.Delete(name);
  }

  /**
   * The script on the four tables it reads: `is_data` is assigned, the boost
   * sample built, `is_data` deleted again, and `is_quark` assigned before
   * each inference sample is built.
   */
  method CreateTrainingSamples(qm: Table, qs: Table, gm: Table, gs: Table) returns (samples: Samples)
    requires Compatible(qs, qm, gs, gm)
    ensures samples.boost == BoostSample(qs, qm, gs, gm)
    ensures samples.training == InferenceSample(qs, gs)
    ensures samples.test == InferenceSample(qm, gm)
  {
    var dfQm := new Frame.Read(qm);
    var dfQs := new Frame.Read(qs);
    var dfGm := new Frame.Read(gm);
    var dfGs := new Frame.Read(gs);

    AssignEach(dfQs, dfQm, dfGs, dfGm, IsData, false, true, false, true);
    BoostSampleSchema(qs, qm, gs, gm);
    var boost := Concat(Concat(Concat(dfQs.Snapshot(), dfQm.Snapshot()), dfGs.Snapshot()), dfGm.Snapshot());
    DeleteEach(dfQs, dfGs, dfQm, dfGm, IsData);
    LabelRemoved(qs, IsData, false);
    LabelRemoved(qm, IsData, true);
    LabelRemoved(gs, IsData, false);
    LabelRemoved(gm, IsData, true);

    InferenceInputs(qs, qm, gs, gm);
    LabelsKeepSchema(Without(qs, IsData), Without(gs, IsData), IsQuark, true, false);
    LabelsKeepSchema(Without(qm, IsData), Without(gm, IsData), IsQuark, true, false);
    dfQs.AssignConstant(IsQuark, true);
    dfGs.AssignConstant(IsQuark, false);
    var training := Concat(dfQs.Snapshot(), dfGs.Snapshot());

    dfQm.AssignConstant(IsQuark, true);
    dfGm.AssignConstant(IsQuark, false);
    var test := Concat(dfQm.Snapshot(), dfGm.Snapshot());
    samples := Samples(boost, training, test);
  }

  // ---------------------------------------------------------------------
  // What the samples hold
  // ---------------------------------------------------------------------

  /** Row `r` of `Append(a, b)` is row `r` of `a`, or row `r - |a|` of `b`. */
  lemma AppendFlags(a: Column, b: Column, r: nat)
    requires a.Flags? && b.Flags? && r < Length(a) + Length(b)
    ensures Append(a, b).bs[r] == if r < Length(a) then a.bs[r] else b.bs[r - Length(a)]
  {
  }

  /** A column of a concatenation is the column of the first table followed by that of the second. */
  lemma ConcatColumn(a: Table, b: Table, c: string)
    requires SameSchema(a, b) && c in a.cols
    ensures c in Concat(a, b).cols && SameKind(a.cols[c], b.cols[c])
    ensures Concat(a, b).cols[c] == Append(a.cols[c], b.cols[c])
  {
  }

  /**
   * The boost sample is qs, qm, gs, gm in that order: every feature column is
   * the four columns one after the other.
   */
  lemma BoostSampleColumns(qs: Table, qm: Table, gs: Table, gm: Table, c: string)
    requires Compatible(qs, qm, gs, gm) && c in qs.cols && c != IsData
    ensures BoostSample(qs, qm, gs, gm).cols.Keys == qs.cols.Keys + {IsData}
    ensures SameKind(qs.cols[c], qm.cols[c]) && SameKind(qs.cols[c], gs.cols[c]) && SameKind(qs.cols[c], gm.cols[c])
    ensures BoostSample(qs, qm, gs, gm).cols[c] == Append(Append(Append(qs.cols[c], qm.cols[c]), gs.cols[c]), gm.cols[c])
  {
    var a, b, d, e := WithLabel(qs, IsData, false), WithLabel(qm, IsData, true), WithLabel(gs, IsData, false), WithLabel(gm, IsData, true);
    BoostSampleSchema(qs, qm, gs, gm);
    ConcatColumn(a, b, c);
    ConcatColumn(Concat(a, b), d, c);
    ConcatColumn(Concat(Concat(a, b), d), e, c);
  }

  /** `is_data` is False on the standard rows (qs, gs) and True on the modified ones (qm, gm). */
  lemma BoostSampleLabels(qs: Table, qm: Table, gs: Table, gm: Table, r: nat)
    requires Compatible(qs, qm, gs, gm) && r < qs.nrows + qm.nrows + gs.nrows + gm.nrows
    ensures IsData in BoostSample(qs, qm, gs, gm).cols
    ensures BoostSample(qs, qm, gs, gm).cols[IsData].Flags? && r < |BoostSample(qs, qm, gs, gm).cols[IsData].bs|
    ensures BoostSample(qs, qm, gs, gm).cols[IsData].bs[r] <==>
      (qs.nrows <= r < qs.nrows + qm.nrows || qs.nrows + qm.nrows + gs.nrows <= r)
  {
    BoostLabelColumn(qs, qm, gs, gm);
    FourFlagsAt(Constant(false, qs.nrows), Constant(true, qm.nrows), Constant(false, gs.nrows), Constant(true, gm.nrows), r);
  }

  /** The `is_data` column of the boost sample: False for qs, True for qm, False for gs, True for gm. */
  lemma BoostLabelColumn(qs: Table, qm: Table, gs: Table, gm: Table)
    requires Compatible(qs, qm, gs, gm)
    ensures IsData in BoostSample(qs, qm, gs, gm).cols
    ensures BoostSample(qs, qm, gs, gm).cols[IsData] ==
      Append(Append(Append(Constant(false, qs.nrows), Constant(true, qm.nrows)), Constant(false, gs.nrows)), Constant(true, gm.nrows))
  {
    var a, b, c, d := WithLabel(qs, IsData, false), WithLabel(qm, IsData, true), WithLabel(gs, IsData, false), WithLabel(gm, IsData, true);
    BoostSampleSchema(qs, qm, gs, gm);
    var ab := Concat(a, b);
    var abc := Concat(ab, c);
    ConcatColumn(a, b, IsData);
    ConcatColumn(ab, c, IsData);
    ConcatColumn(abc, d, IsData);
  }

  /** Row `r` of four flag columns one after the other is row `r` of the part that holds it. */
  lemma FourFlagsAt(a: Column, b: Column, c: Column, d: Column, r: nat)
    requires a.Flags? && b.Flags? && c.Flags? && d.Flags?
    requires r < Length(a) + Length(b) + Length(c) + Length(d)
    ensures Append(Append(Append(a, b), c), d).Flags? && r < |Append(Append(Append(a, b), c), d).bs|
    ensures Append(Append(Append(a, b), c), d).bs[r] ==
      if r < Length(a) then a.bs[r]
      else if r < Length(a) + Length(b) then b.bs[r - Length(a)]
      else if r < Length(a) + Length(b) + Length(c) then c.bs[r - Length(a) - Length(b)]
      else d.bs[r - Length(a) - Length(b) - Length(c)]
  {
    var ab := Append(a, b);
    var abc := Append(ab, c);
    AppendFlags(abc, d, r);
    if r < Length(abc) {
      AppendFlags(ab, c, r);
      if r < Length(ab) {
        AppendFlags(a, b, r);
      }
    }
  }

  /**
   * An inference sample is the signal rows followed by the background rows:
   * it has no `is_data`, every feature column is the two columns one after
   * the other, and `is_quark` is True exactly on the signal rows. For the
   * training sample those are qs and gs, the standard rows only; for the
   * test sample qm and gm, the modified rows only.
   */
  lemma InferenceSampleColumns(signal: Table, background: Table, c: string)
    requires WellFormed(signal) && WellFormed(background) && SameSchema(signal, background)
    requires c in signal.cols && c != IsData && c != IsQuark
    ensures InferenceSample(signal, background).cols.Keys == signal.cols.Keys - {IsData} + {IsQuark}
    ensures SameKind(signal.cols[c], background.cols[c])
    ensures InferenceSample(signal, background).cols[c] == Append(signal.cols[c], background.cols[c])
  {
    var a, b := Without(signal, IsData), Without(background, IsData);
    LabelsKeepSchema(signal, background, IsData, false, false);
    LabelsKeepSchema(a, b, IsQuark, true, false);
    ConcatColumn(WithLabel(a, IsQuark, true), WithLabel(b, IsQuark, false), c);
  }

  /** `is_quark` is True on the signal rows and False on the background rows. */
  lemma InferenceSampleLabels(signal: Table, background: Table, r: nat)
    requires WellFormed(signal) && WellFormed(background) && SameSchema(signal, background)
    requires r < signal.nrows + background.nrows
    ensures IsQuark in InferenceSample(signal, background).cols && IsData !in InferenceSample(signal, background).cols
    ensures InferenceSample(signal, background).cols[IsQuark].Flags? && r < |InferenceSample(signal, background).cols[IsQuark].bs|
    ensures InferenceSample(signal, background).cols[IsQuark].bs[r] <==> r < signal.nrows
  {
    var a, b := Without(signal, IsData), Without(background, IsData);
    LabelsKeepSchema(signal, background, IsData, false, false);
    LabelsKeepSchema(a, b, IsQuark, true, false);
    var x, y := WithLabel(a, IsQuark, true), WithLabel(b, IsQuark, false);
    ConcatColumn(x, y, IsQuark);
    AppendFlags(x.cols[IsQuark], y.cols[IsQuark], r);
  }
}
