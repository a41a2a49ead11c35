/**
 * flatten.py: turns each jet's variable-length track and tower arrays into
 * fixed numbers of scalar columns.
 *
 * For every jet the tracks are put in order of decreasing `trackPt` and that
 * one order is applied to all four track arrays; slot `i` of array `v` becomes
 * column `v_i`, for 52 slots, and slots past the jet's track count are 0.
 * Towers are handled the same way, ordered by `towerE`, with 67 slots.
 * The nine array columns are then deleted and the table is written under the
 * input name with the suffix `_flat`.
 */
module Flatten {
  import opened Names
  import opened Frames

  /** The input pickles, in the order the script processes them. */
  const InputNames: seq<string> := ["gluons_modified", "gluons_standard", "quarks_modified", "quarks_standard"]

  /** The nine array columns, which must be present in every input table. */
  const ArrayColumns: seq<string> := TrackVariables + TowerVariables

  function InputFile(name: string): string
  {
    name + ".pickle"
  }

  /** The file a flattened table is written to. */
  function OutputFile(name: string): (file: string)
    ensures |file| == |name| + |"_flat.pickle"|
    ensures file[..|name|] == name && file[|name|..] == "_flat.pickle"
  {
    name + "_flat.pickle"
  }

  /** Distinct inputs are written to distinct files: the output name gives the input name back. */
  lemma OutputFileInjective(a: string, b: string)
    requires OutputFile(a) == OutputFile(b)
    ensures a == b
  {
    assert a == OutputFile(a)[..|a|];
  }

  // ---------------------------------------------------------------------
  // myargsort
  // ---------------------------------------------------------------------

  /** The indices `0, 1, ..., n-1`. */
  function Indices(n: nat): (r: seq<nat>)
    ensures |r| == n && forall k :: 0 <= k < n ==> r[k] == k
  {
    seq(n, k => k)
  }

  predicate InRange(o: seq<nat>, n: nat)
  {
    forall j :: 0 <= j < |o| ==> o[j] < n
  }

  /** Reading `x` in the order `o` gives non-increasing values. */
  predicate Descending(x: seq<real>, o: seq<nat>)
    requires InRange(o, |x|)
  {
    forall i, j :: 0 <= i < j < |o| ==> x[o[i]] >= x[o[j]]
  }

  /** Where index `k` goes in the descending order `o`: after every index whose value is at least `x[k]`. */
  function InsertPosition(x: seq<real>, o: seq<nat>, k: nat): (p: nat)
    requires k < |x| && InRange(o, |x|)
    ensures p <= |o|
    ensures forall j :: 0 <= j < p ==> x[o[j]] >= x[k]
    ensures p < |o| ==> x[o[p]] < x[k]
  {
    if |o| == 0 || x[o[0]] < x[k] then 0 else 1 + InsertPosition(x, o[1..], k)
  }

  /** `o` with `k` inserted at position `p`. */
  function InsertAt(o: seq<nat>, p: nat, k: nat): (r: seq<nat>)
    requires p <= |o|
    ensures |r| == |o| + 1 && r[p] == k
    ensures forall i :: 0 <= i < p ==> r[i] == o[i]
    ensures forall i :: p < i < |r| ==> r[i] == o[i - 1]
    ensures multiset(r) == multiset(o) + multiset{k}
  {
    assert o == o[..p] + o[p..];
    o[..p] + [k] + o[p..]
  }

  /** Inserting `k` at its position keeps an order descending. */
  lemma InsertKeepsDescending(x: seq<real>, o: seq<nat>, k: nat)
    requires k < |x| && InRange(o, |x|) && Descending(x, o)
    ensures InRange(InsertAt(o, InsertPosition(x, o, k), k), |x|)
    ensures Descending(x, InsertAt(o, InsertPosition(x, o, k), k))
  {
    var p := InsertPosition(x, o, k);
    var r := InsertAt(o, p, k);
    assert InRange(r, |x|) by {
      forall i | 0 <= i < |r| ensures r[i] < |x| {
        if i > p { assert r[i] == o[i - 1]; }
      }
    }
    forall i, j | 0 <= i < j < |r| ensures x[r[i]] >= x[r[j]] {
      if j < p {
        assert x[o[i]] >= x[o[j]];
      } else if j == p {
        assert x[o[i]] >= x[k];
      } else if i < p {
        assert x[o[i]] >= x[o[j - 1]];
      } else if i == p {
        assert x[k] > x[o[p]];
        assert x[o[p]] >= x[o[j - 1]] by { if j - 1 > p { assert x[o[p]] >= x[o[j - 1]]; } }
      } else {
        assert x[o[i - 1]] >= x[o[j - 1]];
      }
    }
  }

  /** Inserts index `k` into the descending order `o` of indices below `k`. */
  function InsertSorted(x: seq<real>, o: seq<nat>, k: nat): (r: seq<nat>)
    requires k < |x| && InRange(o, k) && Descending(x, o)
    ensures |r| == |o| + 1 && InRange(r, k + 1) && Descending(x, r)
    ensures multiset(r) == multiset(o) + multiset{k}
    ensures r == InsertAt(o, InsertPosition(x, o, k), k)
  {
    var p := InsertPosition(x, o, k);
    InsertKeepsDescending(x, o, k);
    var r := InsertAt(o, p, k);
    assert InRange(r, k + 1) by {
      forall i | 0 <= i < |r| ensures r[i] < k + 1 {
        if i < p { assert r[i] == o[i]; } else if i > p { assert r[i] == o[i - 1]; }
      }
    }
    r
  }

  /** A descending order of the indices `0 .. n-1` of `x`, built by inserting them one at a time. */
  function SortedPrefix(x: seq<real>, n: nat): (o: seq<nat>)
    requires n <= |x|
    ensures |o| == n && InRange(o, n)
    ensures multiset(o) == multiset(Indices(n))
    ensures Descending(x, o)
  {
    if n == 0 then []
    else
      assert Indices(n) == Indices(n - 1) + [n - 1];
      InsertSorted(x, SortedPrefix(x, n - 1), n - 1)
  }

  /**
   * `myargsort(x)`: `np.argsort(x)[::-1]`, the indices of `x` ordered by
   * decreasing value. NumPy's default sort is not stable, so the order of
   * equal values is left open; this model places a later index after the
   * earlier ones of equal value.
   */
  function ArgSortDesc(x: seq<real>): (order: seq<nat>)
    ensures |order| == |x| && InRange(order, |x|)
    ensures multiset(order) == multiset(Indices(|x|))
    ensures Descending(x, order)
  {
    SortedPrefix(x, |x|)
  }

  /** `v[o]`: NumPy's fancy indexing of an array by an array of indices. */
  function Gather(v: seq<real>, o: seq<nat>): (r: seq<real>)
    requires InRange(o, |v|)
    ensures |r| == |o| && forall k :: 0 <= k < |o| ==> r[k] == v[o[k]]
  {
    seq(|o|, k requires 0 <= k < |o| => v[o[k]])
  }

  lemma GatherInsertAt(v: seq<real>, o: seq<nat>, p: nat, k: nat)
    requires p <= |o| && InRange(o, |v|) && k < |v|
    ensures InRange(InsertAt(o, p, k), |v|)
    ensures multiset(Gather(v, InsertAt(o, p, k))) == multiset(Gather(v, o)) + multiset{v[k]}
  {
    var r := InsertAt(o, p, k);
    assert Gather(v, r) == Gather(v, o)[..p] + [v[k]] + Gather(v, o)[p..];
    assert Gather(v, o) == Gather(v, o)[..p] + Gather(v, o)[p..];
  }

  lemma GatherInsertSorted(x: seq<real>, v: seq<real>, o: seq<nat>, k: nat)
    requires k < |x| && k < |v| && InRange(o, k) && Descending(x, o)
    ensures InRange(InsertSorted(x, o, k), |v|)
    ensures multiset(Gather(v, InsertSorted(x, o, k))) == multiset(Gather(v, o)) + multiset{v[k]}
  {
    GatherInsertAt(v, o, InsertPosition(x, o, k), k);
  }

  lemma MultisetTake(v: seq<real>, n: nat)
    requires 0 < n <= |v|
    ensures multiset(v[..n]) == multiset(v[..n - 1]) + multiset{v[n - 1]}
  {
    assert v[..n] == v[..n - 1] + [v[n - 1]];
  }

  /**
   * Gathering any column through the order built from the first `n` values
   * of `x` rearranges the column's first `n` values.
   */
  lemma {:induction false} GatherSortedPrefix(x: seq<real>, v: seq<real>, n: nat)
    requires n <= |x| && n <= |v|
    ensures InRange(SortedPrefix(x, n), |v|) && multiset(Gather(v, SortedPrefix(x, n))) == multiset(v[..n])
  {
    if n > 0 {
      GatherSortedPrefix(x, v, n - 1);
      GatherPrefixStep(x, v, n);
    }
  }

  /** The step of `GatherSortedPrefix`: from the first `n - 1` values to the first `n`. */
  lemma GatherPrefixStep(x: seq<real>, v: seq<real>, n: nat)
    requires 0 < n <= |x| && n <= |v|
    requires InRange(SortedPrefix(x, n - 1), |v|) && multiset(Gather(v, SortedPrefix(x, n - 1))) == multiset(v[..n - 1])
    ensures InRange(SortedPrefix(x, n), |v|) && multiset(Gather(v, SortedPrefix(x, n))) == multiset(v[..n])
  {
    var o := SortedPrefix(x, n - 1);
    GatherInsertNext(x, v, o, n - 1);
    assert SortedPrefix(x, n) == InsertSorted(x, o, n - 1);
  }

  /** Inserting index `k` into an order that rearranges `v[..k]` gives one that rearranges `v[..k + 1]`. */
  lemma GatherInsertNext(x: seq<real>, v: seq<real>, o: seq<nat>, k: nat)
    requires k < |x| && k < |v| && InRange(o, k) && Descending(x, o)
    requires multiset(Gather(v, o)) == multiset(v[..k])
    ensures InRange(InsertSorted(x, o, k), |v|)
    ensures multiset(Gather(v, InsertSorted(x, o, k))) == multiset(v[..k + 1])
  {
    GatherInsertSorted(x, v, o, k);
    MultisetTake(v, k + 1);
  }

  /** `myargsort` puts the values of `x` in non-increasing order and loses none of them. */
  lemma ArgSortDescSorts(x: seq<real>)
    ensures |Gather(x, ArgSortDesc(x))| == |x|
    ensures forall i, j :: 0 <= i < j < |x| ==> Gather(x, ArgSortDesc(x))[i] >= Gather(x, ArgSortDesc(x))[j]
    ensures multiset(Gather(x, ArgSortDesc(x))) == multiset(x)
  {
    GatherSortedPrefix(x, x, |x|);
    assert x[..|x|] == x;
  }

  // ---------------------------------------------------------------------
  // Zero padding
  // ---------------------------------------------------------------------

  /**
   * Whether `zero_padded_array[i, :len(o)] = v[o]` succeeds: every index of
   * the order must exist in the array (else NumPy raises IndexError) and the
   * gathered values must fit in the row (else it raises ValueError).
   */
  predicate RowFits(v: seq<real>, o: seq<nat>, width: nat)
  {
    |o| <= width && InRange(o, |v|)
  }

  /** A row of the padded array: the gathered values, then zeros up to `width`. */
  function PaddedRow(v: seq<real>, o: seq<nat>, width: nat): (row: seq<real>)
    requires RowFits(v, o, width)
    ensures |row| == width
    ensures forall k :: 0 <= k < |o| ==> row[k] == v[o[k]]
    ensures forall k :: |o| <= k < width ==> row[k] == 0.0
  {
    Gather(v, o) + seq(width - |o|, _ => 0.0)
  }

  /** The order of every row of an array column, as `df[key].apply(myargsort)` computes it. */
  function Orders(rows: seq<seq<real>>): (orders: seq<seq<nat>>)
    ensures |orders| == |rows|
    ensures forall i :: 0 <= i < |rows| ==> orders[i] == ArgSortDesc(rows[i])
  {
    seq(|rows|, i requires 0 <= i < |rows| => ArgSortDesc(rows[i]))
  }

  /**
   * Fills `np.zeros((len(values), width))` row by row with the values of each
   * row taken in that row's order; stops with `ok == false` at the first row
   * that does not fit, where NumPy raises.
   */
  method ZeroPadded(values: seq<seq<real>>, orders: seq<seq<nat>>, width: nat) returns (ok: bool, a: array2<real>)
    requires |values| == |orders|
    ensures fresh(a) && a.Length0 == |values| && a.Length1 == width
    ensures ok <==> forall i :: 0 <= i < |values| ==> RowFits(values[i], orders[i], width)
    ensures ok ==> forall i, k :: 0 <= i < |values| && 0 <= k < width ==>
      a[i, k] == PaddedRow(values[i], orders[i], width)[k]
  {
    a := new real[|values|, width]((i, k) => 0.0);
    var i := 0;
    while i < |values|
      invariant 0 <= i <= |values|
      invariant forall r :: 0 <= r < i ==> RowFits(values[r], orders[r], width)
      invariant forall r, k :: 0 <= r < i && 0 <= k < width ==> a[r, k] == PaddedRow(values[r], orders[r], width)[k]
      invariant forall r, k :: i <= r < |values| && 0 <= k < width ==> a[r, k] == 0.0
    {
      if !RowFits(values[i], orders[i], width) {
        return false, a;
      }
      var k := 0;
      while k < |orders[i]|
        invariant 0 <= k <= |orders[i]|
        invariant forall r, j :: 0 <= r < i && 0 <= j < width ==> a[r, j] == PaddedRow(values[r], orders[r], width)[j]
        invariant forall r, j :: i < r < |values| && 0 <= j < width ==> a[r, j] == 0.0
        invariant forall j :: 0 <= j < k ==> a[i, j] == values[i][orders[i][j]]
        invariant forall j :: k <= j < width ==> a[i, j] == 0.0
      {
        a[i, k] := values[i][orders[i][k]];
        k := k + 1;
      }
      i := i + 1;
    }
    ok := true;
  }

  // ---------------------------------------------------------------------
  // Flattened columns
  // ---------------------------------------------------------------------

  /** The table has the array column `c`, one array per row. */
  predicate HasArrays(t: Table, c: string)
  {
    c in t.cols && t.cols[c].Lists? && |t.cols[c].vs| == t.nrows
  }

  /** Every row of column `c` fits `width` slots in the order of column `key`. */
  predicate ColumnFits(t: Table, key: string, c: string, width: nat)
    requires HasArrays(t, key) && HasArrays(t, c)
  {
    forall i :: 0 <= i < t.nrows ==> RowFits(t.cols[c].vs[i], ArgSortDesc(t.cols[key].vs[i]), width)
  }

  /** Column `{c}_{k}` of the flattened table: slot `k` of each row of `c`, in the order of `key`. */
  function FlatColumn(t: Table, key: string, c: string, width: nat, k: nat): (col: seq<real>)
    requires HasArrays(t, key) && HasArrays(t, c) && ColumnFits(t, key, c, width) && k < width
    ensures |col| == t.nrows
  {
    seq(t.nrows, i requires 0 <= i < t.nrows => PaddedRow(t.cols[c].vs[i], ArgSortDesc(t.cols[key].vs[i]), width)[k])
  }

  /** The input tables the script can read: the nine array columns are there, one array per row. */
  predicate IsInput(t: Table)
  {
    forall c :: c in ArrayColumns ==> HasArrays(t, c)
  }

  /** Every column of the group `cs` fits `width` slots in the order of `key`. */
  predicate GroupFits(t: Table, key: string, cs: seq<string>, width: nat)
    requires HasArrays(t, key) && forall c :: c in cs ==> HasArrays(t, c)
  {
    forall c :: c in cs ==> ColumnFits(t, key, c, width)
  }

  /** The script flattens the table without raising: no jet has more than 52 tracks or 67 towers, and no array is shorter than the one it is ordered by. */
  predicate Flattenable(t: Table)
    requires IsInput(t)
  {
    assert "trackPt" in ArrayColumns && "towerE" in ArrayColumns;
    GroupFits(t, "trackPt", TrackVariables, MaxTracks) && GroupFits(t, "towerE", TowerVariables, MaxTowers)
  }

  /** In `after`, column `{c}_{k}` holds slot `k` of array column `c` of `before`, for every `c` of the group. */
  ghost predicate GroupFlattened(before: Table, after: Table, key: string, cs: seq<string>, width: nat)
    requires HasArrays(before, key) && (forall c :: c in cs ==> HasArrays(before, c)) && GroupFits(before, key, cs, width)
  {
    forall c, k :: c in cs && 0 <= k < width ==>
      Suffixed(c, k) in after.cols && after.cols[Suffixed(c, k)] == Reals(FlatColumn(before, key, c, width, k))
  }

  /** The names the flattened table has: the array columns are removed and the slot columns added. */
  function FlatNames(before: set<string>): set<string>
  {
    (before - Elements(ArrayColumns)) + SlotNames(TrackVariables, MaxTracks) + SlotNames(TowerVariables, MaxTowers)
  }

  /**
   * `after` is the flattened form of `before`: the nine array columns are
   * gone, `v_k` holds slot `k` of array `v` (52 track slots ordered by
   * `trackPt`, 67 tower slots ordered by `towerE`), and every other column is
   * as it was.
   */
  ghost predicate IsFlattening(before: Table, after: Table)
  {
    assert "trackPt" in ArrayColumns && "towerE" in ArrayColumns;
    && IsInput(before) && Flattenable(before)
    && after.nrows == before.nrows
    && after.cols.Keys == FlatNames(before.cols.Keys)
    && GroupFlattened(before, after, "trackPt", TrackVariables, MaxTracks)
    && GroupFlattened(before, after, "towerE", TowerVariables, MaxTowers)
    && (forall name :: (name in after.cols && name in before.cols && name !in SlotNames(TrackVariables, MaxTracks)
          && name !in SlotNames(TowerVariables, MaxTowers)) ==> after.cols[name] == before.cols[name])
  }

  // ---------------------------------------------------------------------
  // The flattened table, as a function of the input
  // ---------------------------------------------------------------------

  /** `cols` with `{c}_0 .. {c}_{n-1}` set to slots `0 .. n-1` of array column `c` in the order of `key`. */
  function WithSlots(cols: map<string, Column>, t: Table, key: string, c: string, width: nat, n: nat): map<string, Column>
    requires HasArrays(t, key) && HasArrays(t, c) && ColumnFits(t, key, c, width) && n <= width
  {
    if n == 0 then cols
    else WithSlots(cols, t, key, c, width, n - 1)[Suffixed(c, n - 1) := Reals(FlatColumn(t, key, c, width, n - 1))]
  }

  /** `cols` after the loop over the group `cs`: the slot columns of each array of the group, in turn. */
  function WithGroup(cols: map<string, Column>, t: Table, key: string, cs: seq<string>, width: nat): map<string, Column>
    requires HasArrays(t, key) && (forall c :: c in cs ==> HasArrays(t, c)) && GroupFits(t, key, cs, width)
  {
    if |cs| == 0 then cols
    else
      var init := cs[..|cs| - 1];
      assert forall c :: c in init ==> c in cs;
      WithSlots(WithGroup(cols, t, key, init, width), t, key, cs[|cs| - 1], width, width)
  }

  /** The variable lists are distinct plain names, and each group's key is in its group. */
  lemma GroupLists()
    ensures Distinct(TrackVariables) && forall m :: 0 <= m < |TrackVariables| ==> PlainName(TrackVariables[m])
    ensures Distinct(TowerVariables) && forall m :: 0 <= m < |TowerVariables| ==> PlainName(TowerVariables[m])
    ensures "trackPt" in TrackVariables && "towerE" in TowerVariables
    ensures forall c :: c in ArrayColumns <==> c in TrackVariables || c in TowerVariables
  {
    VariableListsArePlain();
  }

  /** What flatten.py leaves of table `t`: both groups flattened, then the nine array columns deleted. */
  function Flattened(t: Table): Table
    requires IsInput(t) && Flattenable(t)
  {
    GroupLists();
    var tracks := WithGroup(t.cols, t, "trackPt", TrackVariables, MaxTracks);
    var towers := WithGroup(tracks, t, "towerE", TowerVariables, MaxTowers);
    Table(t.nrows, towers - Elements(TrackVariables) - Elements(TowerVariables))
  }

  /** The slot loop adds the slot names `{c}_0 .. {c}_{n-1}`, sets them to the flattened slots and keeps every other column. */
  lemma WithSlotsFacts(cols: map<string, Column>, t: Table, key: string, c: string, width: nat, n: nat)
    requires HasArrays(t, key) && HasArrays(t, c) && ColumnFits(t, key, c, width) && n <= width
    ensures WithSlots(cols, t, key, c, width, n).Keys == cols.Keys + Elements(Slots(c, n))
    ensures forall k :: 0 <= k < n ==> WithSlots(cols, t, key, c, width, n)[Suffixed(c, k)] == Reals(FlatColumn(t, key, c, width, k))
    ensures forall name :: name in cols && name !in Slots(c, n) ==> WithSlots(cols, t, key, c, width, n)[name] == cols[name]
  {
    WithSlotsKeys(cols, t, key, c, width, n);
    WithSlotsValues(cols, t, key, c, width, n);
  }

  lemma {:induction false} WithSlotsKeys(cols: map<string, Column>, t: Table, key: string, c: string, width: nat, n: nat)
    requires HasArrays(t, key) && HasArrays(t, c) && ColumnFits(t, key, c, width) && n <= width
    ensures WithSlots(cols, t, key, c, width, n).Keys == cols.Keys + Elements(Slots(c, n))
  {
    if n > 0 {
      WithSlotsKeys(cols, t, key, c, width, n - 1);
      assert Slots(c, n) == Slots(c, n - 1) + [Suffixed(c, n - 1)];
      assert Elements(Slots(c, n)) == Elements(Slots(c, n - 1)) + {Suffixed(c, n - 1)};
    }
  }

  lemma {:induction false} WithSlotsValues(cols: map<string, Column>, t: Table, key: string, c: string, width: nat, n: nat)
    requires HasArrays(t, key) && HasArrays(t, c) && ColumnFits(t, key, c, width) && n <= width
    ensures forall k :: 0 <= k < n ==>
              Suffixed(c, k) in WithSlots(cols, t, key, c, width, n) &&
              WithSlots(cols, t, key, c, width, n)[Suffixed(c, k)] == Reals(FlatColumn(t, key, c, width, k))
    ensures forall name :: name in cols && name !in Slots(c, n) ==>
              name in WithSlots(cols, t, key, c, width, n) && WithSlots(cols, t, key, c, width, n)[name] == cols[name]
  {
    if n > 0 {
      var prev := WithSlots(cols, t, key, c, width, n - 1);
      var last := Suffixed(c, n - 1);
      WithSlotsValues(cols, t, key, c, width, n - 1);
      assert WithSlots(cols, t, key, c, width, n) == prev[last := Reals(FlatColumn(t, key, c, width, n - 1))];
      var r := WithSlots(cols, t, key, c, width, n);
      forall k | 0 <= k < n
        ensures Suffixed(c, k) in r && r[Suffixed(c, k)] == Reals(FlatColumn(t, key, c, width, k))
      {
        if k < n - 1 {
          if Suffixed(c, k) == last {
            SuffixedSameBase(c, k, n - 1);
          }
        }
      }
      assert Slots(c, n) == Slots(c, n - 1) + [last];
      forall name | name in cols && name !in Slots(c, n) ensures name in r && r[name] == cols[name] {
        assert name !in Slots(c, n - 1) && name != last;
      }
    }
  }

  /** The group loop adds exactly the slot names of the group. */
  lemma {:induction false} WithGroupKeys(cols: map<string, Column>, t: Table, key: string, cs: seq<string>, width: nat)
    requires HasArrays(t, key) && (forall c :: c in cs ==> HasArrays(t, c)) && GroupFits(t, key, cs, width)
    ensures WithGroup(cols, t, key, cs, width).Keys == cols.Keys + SlotNames(cs, width)
  {
    if |cs| > 0 {
      var init, last := cs[..|cs| - 1], cs[|cs| - 1];
      WithGroupKeys(cols, t, key, init, width);
      WithSlotsFacts(WithGroup(cols, t, key, init, width), t, key, last, width, width);
      assert cs == init + [last];
      SlotNamesSnoc(init, last, width);
    }
  }

  /** The group loop leaves every column that is not one of its slot names as it was. */
  lemma {:induction false} WithGroupKeeps(cols: map<string, Column>, t: Table, key: string, cs: seq<string>, width: nat, name: string)
    requires HasArrays(t, key) && (forall c :: c in cs ==> HasArrays(t, c)) && GroupFits(t, key, cs, width)
    requires name in cols && name !in SlotNames(cs, width)
    ensures name in WithGroup(cols, t, key, cs, width) && WithGroup(cols, t, key, cs, width)[name] == cols[name]
  {
    if |cs| > 0 {
      var init, last := cs[..|cs| - 1], cs[|cs| - 1];
      assert cs == init + [last];
      SlotNamesSnoc(init, last, width);
      WithGroupKeeps(cols, t, key, init, width, name);
      WithGroupKeys(cols, t, key, init, width);
      WithSlotsFacts(WithGroup(cols, t, key, init, width), t, key, last, width, width);
    }
  }

  /** After the group loop, `{c}_{k}` holds slot `k` of array `c` for every array of the group. */
  lemma {:induction false} WithGroupValues(cols: map<string, Column>, t: Table, key: string, cs: seq<string>, width: nat)
    requires HasArrays(t, key) && (forall c :: c in cs ==> HasArrays(t, c)) && GroupFits(t, key, cs, width)
    requires Distinct(cs) && forall m :: 0 <= m < |cs| ==> PlainName(cs[m])
    ensures forall c, k :: c in cs && 0 <= k < width ==>
      Suffixed(c, k) in WithGroup(cols, t, key, cs, width) && WithGroup(cols, t, key, cs, width)[Suffixed(c, k)] == Reals(FlatColumn(t, key, c, width, k))
  {
    if |cs| > 0 {
      var init, last := cs[..|cs| - 1], cs[|cs| - 1];
      assert Distinct(init);
      WithGroupValues(cols, t, key, init, width);
      WithGroupKeys(cols, t, key, init, width);
      var g := WithGroup(cols, t, key, init, width);
      WithSlotsFacts(g, t, key, last, width, width);
      forall c, k | c in cs && 0 <= k < width
        ensures Suffixed(c, k) in WithGroup(cols, t, key, cs, width) && WithGroup(cols, t, key, cs, width)[Suffixed(c, k)] == Reals(FlatColumn(t, key, c, width, k))
      {
        if c != last {
          var m :| 0 <= m < |cs| && cs[m] == c;
          OtherSlot(c, k, last, width);
        }
      }
    }
  }

  /** Deleting the array columns keeps every name that has an underscore. */
  lemma NotArrayColumn(name: string)
    requires !PlainName(name)
    ensures name !in Elements(TrackVariables) && name !in Elements(TowerVariables)
  {
    VariableListsArePlain();
  }

  /** Removing names that none of the added names equals commutes with the adding. */
  lemma RemoveAfterAdd(k: set<string>, st: set<string>, sw: set<string>, a1: set<string>, a2: set<string>)
    requires st !! (a1 + a2) && sw !! (a1 + a2)
    ensures (k + st + sw) - a1 - a2 == (k - (a1 + a2)) + st + sw
  {
  }

  lemma SlotsNotArrays(cs: seq<string>, width: nat)
    ensures SlotNames(cs, width) !! (Elements(TrackVariables) + Elements(TowerVariables))
  {
    forall name | name in SlotNames(cs, width) ensures name !in Elements(TrackVariables) + Elements(TowerVariables) {
      NotArrayColumn(name);
    }
  }

  lemma FlattenedKeys(t: Table)
    requires IsInput(t) && Flattenable(t)
    ensures Flattened(t).cols.Keys == FlatNames(t.cols.Keys)
  {
    GroupLists();
    var tracks := WithGroup(t.cols, t, "trackPt", TrackVariables, MaxTracks);
    var towers := WithGroup(tracks, t, "towerE", TowerVariables, MaxTowers);
    var st, sw := SlotNames(TrackVariables, MaxTracks), SlotNames(TowerVariables, MaxTowers);
    var a1, a2 := Elements(TrackVariables), Elements(TowerVariables);
    WithGroupKeys(t.cols, t, "trackPt", TrackVariables, MaxTracks);
    WithGroupKeys(tracks, t, "towerE", TowerVariables, MaxTowers);
    assert towers.Keys == t.cols.Keys + st + sw;
    assert Flattened(t).cols.Keys == towers.Keys - a1 - a2;
    SlotsNotArrays(TrackVariables, MaxTracks);
    SlotsNotArrays(TowerVariables, MaxTowers);
    RemoveAfterAdd(t.cols.Keys, st, sw, a1, a2);
    ElementsAppend(TrackVariables, TowerVariables);
  }

  lemma FlattenedTrackSlot(t: Table, c: string, k: nat)
    requires IsInput(t) && Flattenable(t) && c in TrackVariables && k < MaxTracks
    ensures Suffixed(c, k) in Flattened(t).cols && Flattened(t).cols[Suffixed(c, k)] == Reals(FlatColumn(t, "trackPt", c, MaxTracks, k))
  {
    GroupLists();
    FlattenableFits(t);
    var tracks := WithGroup(t.cols, t, "trackPt", TrackVariables, MaxTracks);
    WithGroupValues(t.cols, t, "trackPt", TrackVariables, MaxTracks);
    var m :| 0 <= m < |TrackVariables| && TrackVariables[m] == c;
    ListsDisjoint();
    InSlotNames(c, k, TowerVariables, MaxTowers);
    WithGroupKeeps(tracks, t, "towerE", TowerVariables, MaxTowers, Suffixed(c, k));
    NotArrayColumn(Suffixed(c, k));
  }

  lemma FlattenedTowerSlot(t: Table, c: string, k: nat)
    requires IsInput(t) && Flattenable(t) && c in TowerVariables && k < MaxTowers
    ensures Suffixed(c, k) in Flattened(t).cols && Flattened(t).cols[Suffixed(c, k)] == Reals(FlatColumn(t, "towerE", c, MaxTowers, k))
  {
    GroupLists();
    var tracks := WithGroup(t.cols, t, "trackPt", TrackVariables, MaxTracks);
    WithGroupValues(tracks, t, "towerE", TowerVariables, MaxTowers);
    NotArrayColumn(Suffixed(c, k));
  }

  lemma FlattenedOther(t: Table, name: string)
    requires IsInput(t) && Flattenable(t)
    requires name in Flattened(t).cols && name in t.cols
    requires name !in SlotNames(TrackVariables, MaxTracks) && name !in SlotNames(TowerVariables, MaxTowers)
    ensures Flattened(t).cols[name] == t.cols[name]
  {
    GroupLists();
    var tracks := WithGroup(t.cols, t, "trackPt", TrackVariables, MaxTracks);
    WithGroupKeeps(t.cols, t, "trackPt", TrackVariables, MaxTracks, name);
    WithGroupKeeps(tracks, t, "towerE", TowerVariables, MaxTowers, name);
  }

  /** `Flattened(t)` is the flattening of `t`. */
  lemma FlattenedIsFlattening(t: Table)
    requires IsInput(t) && Flattenable(t)
    ensures IsFlattening(t, Flattened(t))
  {
    GroupLists();
    var after := Flattened(t);
    FlattenedKeys(t);
    forall c, k | c in TrackVariables && 0 <= k < MaxTracks
      ensures Suffixed(c, k) in after.cols && after.cols[Suffixed(c, k)] == Reals(FlatColumn(t, "trackPt", c, MaxTracks, k))
    {
      FlattenedTrackSlot(t, c, k);
    }
    forall c, k | c in TowerVariables && 0 <= k < MaxTowers
      ensures Suffixed(c, k) in after.cols && after.cols[Suffixed(c, k)] == Reals(FlatColumn(t, "towerE", c, MaxTowers, k))
    {
      FlattenedTowerSlot(t, c, k);
    }
    forall name | name in after.cols && name in t.cols && name !in SlotNames(TrackVariables, MaxTracks) && name !in SlotNames(TowerVariables, MaxTowers)
      ensures after.cols[name] == t.cols[name]
    {
      FlattenedOther(t, name);
    }
  }

  // ---------------------------------------------------------------------
  // The flatten loop
  // ---------------------------------------------------------------------

  /** Column `k` of a two-dimensional array: `zero_padded_array[:, k]`. */
  function ColumnOf(a: array2<real>, k: nat): (col: seq<real>)
    requires k < a.Length1
    reads a
    ensures |col| == a.Length0 && forall i :: 0 <= i < a.Length0 ==> col[i] == a[i, k]
  {
    seq(a.Length0, i requires 0 <= i < a.Length0 reads a => a[i, k])
  }

  /** The padded rows of column `c`, in the order of `key`, hold the slot columns of the flattened table. */
  lemma PaddedColumns(t: Table, key: string, c: string, width: nat, a: array2<real>)
    requires HasArrays(t, key) && HasArrays(t, c) && ColumnFits(t, key, c, width)
    requires a.Length0 == t.nrows && a.Length1 == width
    requires forall i, k :: 0 <= i < t.nrows && 0 <= k < width ==>
      a[i, k] == PaddedRow(t.cols[c].vs[i], Orders(t.cols[key].vs)[i], width)[k]
    ensures forall k :: 0 <= k < width ==> ColumnOf(a, k) == FlatColumn(t, key, c, width, k)
  {
    forall k | 0 <= k < width ensures ColumnOf(a, k) == FlatColumn(t, key, c, width, k) {
      forall i | 0 <= i < t.nrows ensures ColumnOf(a, k)[i] == FlatColumn(t, key, c, width, k)[i] {
        assert Orders(t.cols[key].vs)[i] == ArgSortDesc(t.cols[key].vs[i]);
      }
    }
  }

  /**
   * `df[column + '_' + str(k)] = zero_padded_array[:, k]` for every slot `k`,
   * where the array holds the padded rows of `column` of table `src` in the
   * order of `key`.
   */
  method AddSlotColumns(f: Frame, ghost src: Table, ghost key: string, column: string, width: nat, a: array2<real>)
    requires f.Valid() && a.Length0 == f.nrows && a.Length1 == width
    requires HasArrays(src, key) && HasArrays(src, column) && ColumnFits(src, key, column, width)
    requires forall k :: 0 <= k < width ==> ColumnOf(a, k) == FlatColumn(src, key, column, width, k)
    modifies f
    ensures f.Valid() && f.nrows == old(f.nrows)
    ensures f.cols == WithSlots(old(f.cols), src, key, column, width, width)
  {
    var k := 0;
    while k < width
      invariant 0 <= k <= width
      invariant f.Valid() && f.nrows == old(f.nrows)
      invariant f.cols == WithSlots(old(f.cols), src, key, column, width, k)
    {
      f.Assign(Suffixed(column, k), Reals(ColumnOf(a, k)));
      k := k + 1;
    }
  }

  /**
   * The loop over one group of array columns (the four track columns or the
   * five tower columns of table `src`): each is gathered in the order of
   * `key`, padded to `width` slots and stored as `width` new columns. It
   * fails exactly when some row does not fit, where NumPy raises.
   */
  method FlattenGroup(f: Frame, ghost src: Table, key: string, cs: seq<string>, width: nat) returns (ok: bool)
    requires f.Valid() && f.nrows == src.nrows && forall m :: 0 <= m < |cs| ==> PlainName(cs[m])
    requires HasArrays(src, key) && forall c :: c in cs ==> HasArrays(src, c)
    requires key in f.cols && f.cols[key] == src.cols[key]
    requires forall c :: c in cs ==> c in f.cols && c in src.cols && f.cols[c] == src.cols[c]
    modifies f
    ensures f.Valid() && f.nrows == old(f.nrows)
    ensures ok <==> GroupFits(src, key, cs, width)
    ensures ok ==> f.cols == WithGroup(old(f.cols), src, key, cs, width)
  {
    var orders := Orders(f.cols[key].vs);
    var j := 0;
    while j < |cs|
      invariant 0 <= j <= |cs|
      invariant f.Valid() && f.nrows == src.nrows
      invariant GroupFits(src, key, cs[..j], width) && f.cols == WithGroup(old(f.cols), src, key, cs[..j], width)
      invariant forall c :: c in cs ==> c in f.cols && c in src.cols && f.cols[c] == src.cols[c]
    {
      var c := cs[j];
      assert c in cs;
      var fits, a := ZeroPadded(f.cols[c].vs, orders, width);
      if !fits {
        return false;
      }
      PaddedColumns(src, key, c, width, a);
      TakeSnoc(cs, j);
      forall d | d in cs ensures d !in Slots(c, width) {
        var m :| 0 <= m < |cs| && cs[m] == d;
        SlotsNotPlain(d, c, width);
      }
      WithSlotsFacts(f.cols, src, key, c, width, width);
      AddSlotColumns(f, src, key, c, width, a);
      j := j + 1;
    }
    assert cs[..j] == cs;
    ok := true;
  }

  /** `del df[column]` for each column of `cs`, in order. */
  method DeleteColumns(f: Frame, cs: seq<string>)
    requires f.Valid() && Distinct(cs) && forall c :: c in cs ==> c in f.cols
    modifies f
    ensures f.Valid() && f.nrows == old(f.nrows) && f.cols == old(f.cols) - Elements(cs)
  {
    var j := 0;
    while j < |cs|
      invariant 0 <= j <= |cs|
      invariant f.Valid() && f.nrows == old(f.nrows) && f.cols == old(f.cols) - Elements(cs[..j])
    {
      TakeSnoc(cs, j);
      assert cs[j] in cs;
      f.Delete(cs[j]);
      j := j + 1;
    }
    assert cs[..j] == cs;
  }

  /** The track group loop leaves the tower arrays of `t` as they were. */
  lemma TrackGroupKeepsArrays(t: Table)
    requires IsInput(t) && GroupFits(t, "trackPt", TrackVariables, MaxTracks)
    ensures forall c :: c in ArrayColumns ==>
      c in WithGroup(t.cols, t, "trackPt", TrackVariables, MaxTracks) && WithGroup(t.cols, t, "trackPt", TrackVariables, MaxTracks)[c] == t.cols[c]
  {
    GroupLists();
    forall c | c in ArrayColumns
      ensures c in WithGroup(t.cols, t, "trackPt", TrackVariables, MaxTracks) && WithGroup(t.cols, t, "trackPt", TrackVariables, MaxTracks)[c] == t.cols[c]
    {
      assert PlainName(c);
      PlainNotSlot(c, TrackVariables, MaxTracks);
      WithGroupKeeps(t.cols, t, "trackPt", TrackVariables, MaxTracks, c);
    }
  }

  /** Both group loops leave the nine array columns in place, so that they can be deleted. */
  lemma GroupsKeepArrays(t: Table)
    requires IsInput(t) && Flattenable(t)
    ensures forall c :: c in ArrayColumns ==>
      c in WithGroup(WithGroup(t.cols, t, "trackPt", TrackVariables, MaxTracks), t, "towerE", TowerVariables, MaxTowers)
  {
    GroupLists();
    TrackGroupKeepsArrays(t);
    var tracks := WithGroup(t.cols, t, "trackPt", TrackVariables, MaxTracks);
    forall c | c in ArrayColumns
      ensures c in WithGroup(tracks, t, "towerE", TowerVariables, MaxTowers)
    {
      assert PlainName(c);
      PlainNotSlot(c, TowerVariables, MaxTowers);
      WithGroupKeeps(tracks, t, "towerE", TowerVariables, MaxTowers, c);
    }
  }

  /**
   * The body of the loop over input names, on one table: the track group
   * ordered by `trackPt` with 52 slots, the tower group ordered by `towerE`
   * with 67 slots, then the deletion of the nine array columns. It fails
   * exactly when the script would raise; otherwise the frame holds
   * `Flattened` of the table it held.
   */
  method FlattenFrame(f: Frame) returns (ok: bool)
    requires f.Valid() && IsInput(f.Snapshot())
    modifies f
    ensures f.Valid() && f.nrows == old(f.nrows)
    ensures ok <==> Flattenable(old(f.Snapshot()))
    ensures ok ==> f.Snapshot() == Flattened(old(f.Snapshot()))
  {
    ghost var t := f.Snapshot();
    TrackCallReady(t);
    ok := FlattenGroup(f, t, "trackPt", TrackVariables, MaxTracks);
    if !ok {
      return;
    }
    ghost var tracks := f.cols;
    TowerCallReady(t, tracks);
    ok := FlattenGroup(f, t, "towerE", TowerVariables, MaxTowers);
    if !ok {
      return;
    }
    ghost var towers := f.cols;
    DeleteReady(t, tracks, towers);
    DeleteColumns(f, TrackVariables);
    DeleteColumns(f, TowerVariables);
    FlattenedIs(t, tracks, towers);
  }

  /** Both groups of a flattenable input table have their arrays, and both fit. */
  lemma FlattenableFits(t: Table)
    requires IsInput(t) && Flattenable(t)
    ensures HasArrays(t, "trackPt") && (forall c :: c in TrackVariables ==> HasArrays(t, c))
    ensures GroupFits(t, "trackPt", TrackVariables, MaxTracks)
    ensures HasArrays(t, "towerE") && (forall c :: c in TowerVariables ==> HasArrays(t, c))
    ensures GroupFits(t, "towerE", TowerVariables, MaxTowers)
  {
    GroupLists();
  }

  /** The track group loop may run on an input table, and its outcome decides the first half of `Flattenable`. */
  lemma TrackCallReady(t: Table)
    requires IsInput(t)
    ensures HasArrays(t, "trackPt") && forall c :: c in TrackVariables ==> HasArrays(t, c) && c in t.cols
    ensures forall m :: 0 <= m < |TrackVariables| ==> PlainName(TrackVariables[m])
    ensures !GroupFits(t, "trackPt", TrackVariables, MaxTracks) ==> !Flattenable(t)
  {
    GroupLists();
  }

  /** After the track group loop, the tower group loop may run, and its outcome decides `Flattenable`. */
  lemma TowerCallReady(t: Table, tracks: map<string, Column>)
    requires IsInput(t) && GroupFits(t, "trackPt", TrackVariables, MaxTracks)
    requires tracks == WithGroup(t.cols, t, "trackPt", TrackVariables, MaxTracks)
    ensures HasArrays(t, "towerE") && forall c :: c in TowerVariables ==> HasArrays(t, c)
    ensures "towerE" in tracks && tracks["towerE"] == t.cols["towerE"]
    ensures forall c :: c in TowerVariables ==> c in tracks && c in t.cols && tracks[c] == t.cols[c]
    ensures forall m :: 0 <= m < |TowerVariables| ==> PlainName(TowerVariables[m])
    ensures Flattenable(t) <==> GroupFits(t, "towerE", TowerVariables, MaxTowers)
  {
    GroupLists();
    TrackGroupKeepsArrays(t);
  }

  /** After both group loops, every array column is still there to be deleted. */
  lemma DeleteReady(t: Table, tracks: map<string, Column>, towers: map<string, Column>)
    requires IsInput(t) && Flattenable(t)
    requires tracks == WithGroup(t.cols, t, "trackPt", TrackVariables, MaxTracks)
    requires towers == WithGroup(tracks, t, "towerE", TowerVariables, MaxTowers)
    ensures Distinct(TrackVariables) && forall c :: c in TrackVariables ==> c in towers
    ensures Distinct(TowerVariables) && forall c :: c in TowerVariables ==> c in towers - Elements(TrackVariables)
  {
    GroupLists();
    GroupsKeepArrays(t);
    ListsDisjoint();
  }

  /** `Flattened` spelled out: the two group loops, then the deletion of both variable lists. */
  lemma FlattenedIs(t: Table, tracks: map<string, Column>, towers: map<string, Column>)
    requires IsInput(t) && Flattenable(t)
    requires tracks == WithGroup(t.cols, t, "trackPt", TrackVariables, MaxTracks)
    requires towers == WithGroup(tracks, t, "towerE", TowerVariables, MaxTowers)
    ensures Flattened(t) == Table(t.nrows, towers - Elements(TrackVariables) - Elements(TowerVariables))
  {
  }

  /**
   * The script: for each input name in turn, read `{name}.pickle`, flatten
   * it and write `{name}_flat.pickle`. `files` maps file names to the tables
   * they hold; the result lists the files written, in order. The first table
   * that cannot be flattened stops the script.
   */
  method FlattenPickles(files: map<string, Table>) returns (written: seq<(string, Table)>)
    requires forall name :: name in InputNames ==>
      InputFile(name) in files && WellFormed(files[InputFile(name)]) && IsInput(files[InputFile(name)])
    ensures |written| <= |InputNames|
    ensures forall j :: 0 <= j < |written| ==>
      var t := files[InputFile(InputNames[j])];
      written[j].0 == OutputFile(InputNames[j]) && Flattenable(t) && written[j].1 == Flattened(t)
    ensures |written| < |InputNames| ==> !Flattenable(files[InputFile(InputNames[|written|])])
  {
    written := FlattenNames(files, InputNames);
  }

  /** The loop of the script over the input names `names`, in order. */
  method FlattenNames(files: map<string, Table>, names: seq<string>) returns (written: seq<(string, Table)>)
    requires forall name :: name in names ==>
      InputFile(name) in files && WellFormed(files[InputFile(name)]) && IsInput(files[InputFile(name)])
    ensures |written| <= |names|
    ensures forall j :: 0 <= j < |written| ==>
      var t := files[InputFile(names[j])];
      written[j].0 == OutputFile(names[j]) && Flattenable(t) && written[j].1 == Flattened(t)
    ensures |written| < |names| ==> !Flattenable(files[InputFile(names[|written|])])
  {
    written := [];
    var j := 0;
    while j < |names|
      invariant 0 <= j <= |names| && |written| == j
      invariant forall m :: 0 <= m < j ==>
        var t := files[InputFile(names[m])];
        written[m].0 == OutputFile(names[m]) && Flattenable(t) && written[m].1 == Flattened(t)
    {
      var name := names[j];
      assert name in names;
      var t := files[InputFile(name)];
      var f := new Frame.Read(t);
      var ok := FlattenFrame(f);
      if !ok {
        assert !Flattenable(t);
        return;
      }
      written := written + [(OutputFile(name), f.Snapshot())];
      j := j + 1;
    }
    assert |written| == |names|;
  }

  // ---------------------------------------------------------------------
  // Properties of the flattened table
  // ---------------------------------------------------------------------

  /** Row `i` of column `{c}_{k}` of `t`, or 0 when there is no such real-valued column or row. */
  function Slot(t: Table, c: string, k: nat, i: nat): real
  {
    if Suffixed(c, k) in t.cols && t.cols[Suffixed(c, k)].Reals? && i < |t.cols[Suffixed(c, k)].xs|
    then t.cols[Suffixed(c, k)].xs[i] else 0.0
  }

  /**
   * Row `i` of a flattened group: one order `o` of the key's indices is applied
   * to every array of the group, so slot `k` of every array belongs to the
   * same constituent; slots past the constituent count are 0.
   */
  lemma GroupSlots(t: Table, after: Table, key: string, cs: seq<string>, width: nat, i: nat)
    requires HasArrays(t, key) && (forall c :: c in cs ==> HasArrays(t, c)) && GroupFits(t, key, cs, width)
    requires GroupFlattened(t, after, key, cs, width) && key in cs && i < t.nrows
    ensures var o := ArgSortDesc(t.cols[key].vs[i]);
      && |o| == |t.cols[key].vs[i]| <= width
      && multiset(o) == multiset(Indices(|o|))
      && forall c, k :: c in cs && 0 <= k < width ==>
           Slot(after, c, k, i) == if k < |o| then t.cols[c].vs[i][o[k]] else 0.0
  {
    var o := ArgSortDesc(t.cols[key].vs[i]);
    assert RowFits(t.cols[key].vs[i], o, width);
    forall c, k | c in cs && 0 <= k < width
      ensures Slot(after, c, k, i) == if k < |o| then t.cols[c].vs[i][o[k]] else 0.0
    {
      assert after.cols[Suffixed(c, k)] == Reals(FlatColumn(t, key, c, width, k));
    }
  }

  /** The first `n` slots of an array column hold its first `n` values, rearranged. */
  lemma GroupSlotsRearrange(t: Table, after: Table, key: string, cs: seq<string>, width: nat, c: string, i: nat)
    requires HasArrays(t, key) && (forall c :: c in cs ==> HasArrays(t, c)) && GroupFits(t, key, cs, width)
    requires GroupFlattened(t, after, key, cs, width) && key in cs && c in cs && i < t.nrows
    ensures var n := |t.cols[key].vs[i]|;
      n <= |t.cols[c].vs[i]| && multiset(seq(n, k requires 0 <= k => Slot(after, c, k, i))) == multiset(t.cols[c].vs[i][..n])
  {
    var x, v := t.cols[key].vs[i], t.cols[c].vs[i];
    var o := ArgSortDesc(x);
    GroupSlots(t, after, key, cs, width, i);
    assert ColumnFits(t, key, c, width);
    assert RowFits(v, o, width);
    var n := |x|;
    GatherSortedPrefix(x, v, n);
    assert seq(n, k requires 0 <= k => Slot(after, c, k, i)) == Gather(v, o);
  }

  /** The key's slots hold its values in non-increasing order. */
  lemma GroupKeySorted(t: Table, after: Table, key: string, cs: seq<string>, width: nat, i: nat)
    requires HasArrays(t, key) && (forall c :: c in cs ==> HasArrays(t, c)) && GroupFits(t, key, cs, width)
    requires GroupFlattened(t, after, key, cs, width) && key in cs && i < t.nrows
    ensures forall k, j :: 0 <= k < j < |t.cols[key].vs[i]| ==> Slot(after, key, k, i) >= Slot(after, key, j, i)
  {
    GroupSlots(t, after, key, cs, width, i);
  }

  /**
   * For each jet, `trackPt_0 .. trackPt_{n-1}` hold its n track momenta in
   * non-increasing order, a rearrangement of them, and `trackPt_n ..
   * trackPt_51` are 0; likewise `towerE_k` for its towers, with 67 slots.
   */
  lemma FlattenedSorted(t: Table, after: Table, i: nat)
    requires IsInput(t) && IsFlattening(t, after) && i < t.nrows
    ensures assert HasArrays(t, "trackPt") && "towerE" in ArrayColumns && HasArrays(t, "towerE"); var pt, e := t.cols["trackPt"].vs[i], t.cols["towerE"].vs[i];
      && |pt| <= MaxTracks && |e| <= MaxTowers
      && (forall k, j :: 0 <= k < j < |pt| ==> Slot(after, "trackPt", k, i) >= Slot(after, "trackPt", j, i))
      && (forall k :: |pt| <= k < MaxTracks ==> Slot(after, "trackPt", k, i) == 0.0)
      && multiset(seq(|pt|, k requires 0 <= k => Slot(after, "trackPt", k, i))) == multiset(pt)
      && (forall k, j :: 0 <= k < j < |e| ==> Slot(after, "towerE", k, i) >= Slot(after, "towerE", j, i))
      && (forall k :: |e| <= k < MaxTowers ==> Slot(after, "towerE", k, i) == 0.0)
      && multiset(seq(|e|, k requires 0 <= k => Slot(after, "towerE", k, i))) == multiset(e)
  {
    GroupLists();
    GroupKeySlots(t, after, "trackPt", TrackVariables, MaxTracks, i);
    GroupKeySlots(t, after, "towerE", TowerVariables, MaxTowers, i);
  }

  /** The key's slots of row `i` in one group: its values in non-increasing order, rearranged, then zeros. */
  lemma GroupKeySlots(t: Table, after: Table, key: string, cs: seq<string>, width: nat, i: nat)
    requires HasArrays(t, key) && (forall c :: c in cs ==> HasArrays(t, c)) && GroupFits(t, key, cs, width)
    requires GroupFlattened(t, after, key, cs, width) && key in cs && i < t.nrows
    ensures var x := t.cols[key].vs[i];
      && |x| <= width
      && (forall k, j :: 0 <= k < j < |x| ==> Slot(after, key, k, i) >= Slot(after, key, j, i))
      && (forall k :: |x| <= k < width ==> Slot(after, key, k, i) == 0.0)
      && multiset(seq(|x|, k requires 0 <= k => Slot(after, key, k, i))) == multiset(x)
  {
    var x := t.cols[key].vs[i];
    GroupSlots(t, after, key, cs, width, i);
    GroupKeySorted(t, after, key, cs, width, i);
    GroupSlotsRearrange(t, after, key, cs, width, key, i);
    assert x[..|x|] == x;
  }

  lemma TrackTowerSlotsDisjoint()
    ensures SlotNames(TrackVariables, MaxTracks) !! SlotNames(TowerVariables, MaxTowers)
  {
    GroupLists();
    ListsDisjoint();
    forall name | name in SlotNames(TrackVariables, MaxTracks) ensures name !in SlotNames(TowerVariables, MaxTowers) {
      var c, k :| c in TrackVariables && 0 <= k < MaxTracks && name == Suffixed(c, k);
      var m :| 0 <= m < |TrackVariables| && TrackVariables[m] == c;
      InSlotNames(c, k, TowerVariables, MaxTowers);
    }
  }

  /** Flattening adds 4 * 52 + 5 * 67 slot names, none of them an array column. */
  lemma SlotNameCount()
    ensures |SlotNames(TrackVariables, MaxTracks) + SlotNames(TowerVariables, MaxTowers)| == 4 * 52 + 5 * 67
    ensures SlotNames(TrackVariables, MaxTracks) !! SlotNames(TowerVariables, MaxTowers)
    ensures (SlotNames(TrackVariables, MaxTracks) + SlotNames(TowerVariables, MaxTowers)) !! Elements(ArrayColumns)
  {
    GroupLists();
    var st, sw := SlotNames(TrackVariables, MaxTracks), SlotNames(TowerVariables, MaxTowers);
    SlotNamesCard(TrackVariables, MaxTracks);
    SlotNamesCard(TowerVariables, MaxTowers);
    TrackTowerSlotsDisjoint();
    assert st * sw == {};
    assert |st + sw| == |st| + |sw|;
    SlotsNotArrays(TrackVariables, MaxTracks);
    SlotsNotArrays(TowerVariables, MaxTowers);
    ElementsAppend(TrackVariables, TowerVariables);
  }
}
