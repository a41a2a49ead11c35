/**
 * Column names of the flattened jet tables.
 *
 * Every flattened column is named `{variable}_{i}`: a per-constituent variable
 * name, an underscore and the slot number written in decimal, as Python's
 * `name + '_' + str(i)` and `'{0}_{1}'.format(name, i)` produce it.
 * This module defines those names, the variable lists shared by the scripts,
 * and the facts that make the names unambiguous.
 */
module Names {

  /** The per-jet scalar variables, in the order the scripts list them. */
  const JetVariables: seq<string> := ["jetPt", "jetEta", "jetPhi", "jetMass", "ntracks", "ntowers"]

  /** The per-track array variables. */
  const TrackVariables: seq<string> := ["trackPt", "trackEta", "trackPhi", "trackCharge"]

  /** The per-tower array variables. */
  const TowerVariables: seq<string> := ["towerE", "towerEem", "towerEhad", "towerEta", "towerPhi"]

  /** Number of track slots and tower slots of a flattened jet. */
  const MaxTracks: nat := 52
  const MaxTowers: nat := 67

  function DigitChar(d: nat): (c: char)
    requires d < 10
    ensures '0' <= c <= '9'
  {
    ('0' as int + d) as char
  }

  function DigitValue(c: char): (d: nat)
    requires '0' <= c <= '9'
    ensures d < 10 && DigitChar(d) == c
  {
    c as int - '0' as int
  }

  predicate AllDigits(s: string)
  {
    forall k :: 0 <= k < |s| ==> '0' <= s[k] <= '9'
  }

  /** Decimal text of `n`, as Python's `str(n)` for a non-negative int. */
  function Digits(n: nat): (s: string)
    ensures |s| >= 1 && AllDigits(s)
  {
    if n < 10 then [DigitChar(n)] else Digits(n / 10) + [DigitChar(n % 10)]
  }

  /** Reads a string of decimal digits back as a number. */
  function ParseDigits(s: string): nat
    requires AllDigits(s)
  {
    if |s| == 0 then 0 else 10 * ParseDigits(s[..|s| - 1]) + DigitValue(s[|s| - 1])
  }

  /** `Digits` and `ParseDigits` are inverse: the decimal text determines the number. */
  lemma {:induction false} ParseDigitsOfDigits(n: nat)
    ensures ParseDigits(Digits(n)) == n
  {
    var s := Digits(n);
    if n < 10 {
      assert s[..|s| - 1] == [];
    } else {
      assert s[..|s| - 1] == Digits(n / 10);
      ParseDigitsOfDigits(n / 10);
    }
  }

  lemma DigitsInjective(m: nat, n: nat)
    requires Digits(m) == Digits(n)
    ensures m == n
  {
    ParseDigitsOfDigits(m);
    ParseDigitsOfDigits(n);
  }

  /** The column name `{base}_{i}`. */
  function Suffixed(base: string, i: nat): (name: string)
    ensures '_' in name
    ensures |name| > |base| && name[..|base|] == base && name[|base|] == '_'
  {
    base + "_" + Digits(i)
  }

  /** A base name can be read back from a suffixed name when it has no underscore. */
  predicate PlainName(s: string)
  {
    '_' !in s
  }

  /**
   * Suffixed names of plain bases are unambiguous: equal names have equal
   * bases and equal slot numbers.
   */
  lemma SuffixedInjective(a: string, i: nat, b: string, j: nat)
    requires PlainName(a) && PlainName(b)
    requires Suffixed(a, i) == Suffixed(b, j)
    ensures a == b && i == j
  {
    var s := Suffixed(a, i);
    assert a == s[..|a|] == b;
    assert Digits(i) == s[|a| + 1..] == Digits(j);
    DigitsInjective(i, j);
  }

  /** The slot number is read back from a name with a known base. */
  lemma SuffixedSameBase(c: string, i: nat, j: nat)
    requires Suffixed(c, i) == Suffixed(c, j)
    ensures i == j
  {
    var s := Suffixed(c, i);
    assert Digits(i) == s[|c| + 1..] == Digits(j);
    DigitsInjective(i, j);
  }

  /** A suffixed name never equals a plain name, such as a jet scalar. */
  lemma SuffixedNotPlain(base: string, i: nat, name: string)
    requires PlainName(name)
    ensures Suffixed(base, i) != name
  {
  }

  lemma VariableListsArePlain()
    ensures forall k :: 0 <= k < |JetVariables| ==> PlainName(JetVariables[k])
    ensures forall k :: 0 <= k < |TrackVariables| ==> PlainName(TrackVariables[k])
    ensures forall k :: 0 <= k < |TowerVariables| ==> PlainName(TowerVariables[k])
  {
  }

  /** No element occurs twice. */
  predicate Distinct<T(==)>(s: seq<T>)
  {
    forall i, j :: 0 <= i < j < |s| ==> s[i] != s[j]
  }

  /** The set of elements of a sequence. */
  function Elements<T(==)>(s: seq<T>): set<T>
  {
    set x | x in s
  }

  /** A sequence without repetitions has as many elements as its length. */
  lemma {:induction false} DistinctCard<T>(s: seq<T>)
    requires Distinct(s)
    ensures |Elements(s)| == |s|
  {
    if |s| > 0 {
      var init := s[..|s| - 1];
      assert Distinct(init);
      DistinctCard(init);
      assert Elements(s) == Elements(init) + {s[|s| - 1]};
    }
  }

  /** The names `{c}_0`, ..., `{c}_{width-1}`. */
  function Slots(c: string, width: nat): (names: seq<string>)
    ensures |names| == width && forall k :: 0 <= k < width ==> names[k] == Suffixed(c, k)
  {
    seq(width, k requires 0 <= k => Suffixed(c, k))
  }

  /** For each variable of `cs` in turn, its slot names `0 .. width-1`: the order of Python's nested loop over variables and slots. */
  function SlotList(cs: seq<string>, width: nat): seq<string>
  {
    if |cs| == 0 then [] else SlotList(cs[..|cs| - 1], width) + Slots(cs[|cs| - 1], width)
  }

  /** The names `{c}_{k}` for the variables `cs` and slots `0 .. width-1`, as a set. */
  function SlotNames(cs: seq<string>, width: nat): set<string>
  {
    set c, k | c in cs && 0 <= k < width :: Suffixed(c, k)
  }

  /** One more variable appends its slots. */
  lemma SlotListSnoc(init: seq<string>, last: string, width: nat)
    ensures SlotList(init + [last], width) == SlotList(init, width) + Slots(last, width)
  {
    assert (init + [last])[..|init|] == init;
  }

  lemma {:induction false} SlotListLength(cs: seq<string>, width: nat)
    ensures |SlotList(cs, width)| == |cs| * width
  {
    if |cs| > 0 {
      SlotListLength(cs[..|cs| - 1], width);
      assert (|cs| - 1) * width + width == |cs| * width;
    }
  }

  /** Element `m * width + k` of the list is slot `k` of variable `m`. */
  lemma {:induction false} SlotListIndex(cs: seq<string>, width: nat, m: nat, k: nat)
    requires m < |cs| && k < width
    ensures m * width + k < |SlotList(cs, width)| && SlotList(cs, width)[m * width + k] == Suffixed(cs[m], k)
  {
    var init := cs[..|cs| - 1];
    SlotListLength(init, width);
    if m < |cs| - 1 {
      SlotListIndex(init, width, m, k);
    } else {
      assert m * width == |init| * width;
    }
  }

  /** The list holds exactly the names of the set. */
  lemma {:induction false} SlotListElements(cs: seq<string>, width: nat)
    ensures Elements(SlotList(cs, width)) == SlotNames(cs, width)
  {
    if |cs| > 0 {
      var init := cs[..|cs| - 1];
      var last := cs[|cs| - 1];
      SlotListElements(init, width);
      assert cs == init + [last];
      assert Elements(Slots(last, width)) == set k | 0 <= k < width :: Suffixed(last, k);
      assert SlotNames(cs, width) == SlotNames(init, width) + set k | 0 <= k < width :: Suffixed(last, k);
    }
  }

  /** Distinct plain variables give distinct slot names. */
  lemma {:induction false} SlotListDistinct(cs: seq<string>, width: nat)
    requires Distinct(cs) && forall m :: 0 <= m < |cs| ==> PlainName(cs[m])
    ensures Distinct(SlotList(cs, width))
  {
    if |cs| > 0 {
      var init := cs[..|cs| - 1];
      var last := cs[|cs| - 1];
      assert Distinct(init);
      SlotListDistinct(init, width);
      SlotListDistinctStep(init, last, width);
    }
  }

  /** Appending the slots of a new plain variable keeps the slot names distinct. */
  lemma SlotListDistinctStep(init: seq<string>, last: string, width: nat)
    requires Distinct(SlotList(init, width)) && last !in init
    requires PlainName(last) && forall m :: 0 <= m < |init| ==> PlainName(init[m])
    ensures Distinct(SlotList(init + [last], width))
  {
    var cs := init + [last];
    assert cs[..|cs| - 1] == init;
    SlotListElements(init, width);
    var a, b := SlotList(init, width), Slots(last, width);
    assert SlotList(cs, width) == a + b;
    forall i, j | 0 <= i < j < |a + b| ensures (a + b)[i] != (a + b)[j] {
      if j >= |a| && i >= |a| {
        if Suffixed(last, i - |a|) == Suffixed(last, j - |a|) {
          SuffixedInjective(last, i - |a|, last, j - |a|);
        }
      } else if i < |a| && j >= |a| {
        assert a[i] in SlotNames(init, width);
        var c, k :| c in init && 0 <= k < width && a[i] == Suffixed(c, k);
        var m :| 0 <= m < |init| && init[m] == c;
        if a[i] == b[j - |a|] {
          SuffixedInjective(c, k, last, j - |a|);
        }
      }
    }
  }

  /** There are `|cs| * width` slot names of distinct plain variables. */
  lemma SlotNamesCard(cs: seq<string>, width: nat)
    requires Distinct(cs) && forall m :: 0 <= m < |cs| ==> PlainName(cs[m])
    ensures |SlotNames(cs, width)| == |cs| * width
  {
    SlotListDistinct(cs, width);
    SlotListElements(cs, width);
    DistinctCard(SlotList(cs, width));
    SlotListLength(cs, width);
  }

  /** A slot name of a plain variable is in the set exactly when its variable and slot are. */
  lemma InSlotNames(c: string, k: nat, cs: seq<string>, width: nat)
    requires PlainName(c) && forall m :: 0 <= m < |cs| ==> PlainName(cs[m])
    ensures Suffixed(c, k) in SlotNames(cs, width) <==> c in cs && k < width
  {
    if Suffixed(c, k) in SlotNames(cs, width) {
      var d, j :| d in cs && 0 <= j < width && Suffixed(c, k) == Suffixed(d, j);
      SuffixedInjective(c, k, d, j);
    }
  }

  /** No plain name is a slot name. */
  lemma PlainNotSlot(name: string, cs: seq<string>, width: nat)
    requires PlainName(name)
    ensures name !in SlotNames(cs, width)
  {
  }

  lemma TakeSnoc<T>(s: seq<T>, j: nat)
    requires j < |s|
    ensures s[..j + 1] == s[..j] + [s[j]]
  {
  }

  lemma SlotNamesSnoc(cs: seq<string>, c: string, width: nat)
    ensures SlotNames(cs + [c], width) == SlotNames(cs, width) + Elements(Slots(c, width))
  {
  }

  lemma SlotsNotPlain(name: string, c: string, width: nat)
    requires PlainName(name)
    ensures name !in Slots(c, width)
  {
  }

  lemma OtherSlot(a: string, k: nat, b: string, width: nat)
    requires PlainName(a) && PlainName(b) && a != b
    ensures Suffixed(a, k) !in Slots(b, width)
  {
    if Suffixed(a, k) in Slots(b, width) {
      var i :| 0 <= i < width && Slots(b, width)[i] == Suffixed(a, k);
      SuffixedInjective(a, k, b, i);
    }
  }

  /** No variable is both a track and a tower variable. */
  lemma ListsDisjoint()
    ensures forall c :: c in TrackVariables ==> c !in TowerVariables
  {
  }

  lemma VariableListsDistinct()
    ensures Distinct(JetVariables) && Distinct(TrackVariables) && Distinct(TowerVariables)
  {
  }

  // ---------------------------------------------------------------------
  // The column list of a flattened jet table
  // ---------------------------------------------------------------------

  /**
   * The jet scalars, then every track variable with its `numTracks` slots,
   * then every tower variable with its `numTowers` slots.
   */
  function ColumnNames(numTracks: nat, numTowers: nat): seq<string>
  {
    JetVariables + SlotList(TrackVariables, numTracks) + SlotList(TowerVariables, numTowers)
  }

  /** The column list holds `6 + 4 * numTracks + 5 * numTowers` names. */
  lemma ColumnNamesLength(numTracks: nat, numTowers: nat)
    ensures |ColumnNames(numTracks, numTowers)| == |JetVariables| + |TrackVariables| * numTracks + |TowerVariables| * numTowers
    ensures |ColumnNames(numTracks, numTowers)| == 6 + 4 * numTracks + 5 * numTowers
  {
    SlotListLength(TrackVariables, numTracks);
    SlotListLength(TowerVariables, numTowers);
  }

  /** The names in the column list: the jet scalars and the track and tower slot names. */
  lemma ColumnNamesElements(numTracks: nat, numTowers: nat)
    ensures Elements(ColumnNames(numTracks, numTowers))
         == Elements(JetVariables) + SlotNames(TrackVariables, numTracks) + SlotNames(TowerVariables, numTowers)
  {
    var a, b, c := JetVariables, SlotList(TrackVariables, numTracks), SlotList(TowerVariables, numTowers);
    SlotListElements(TrackVariables, numTracks);
    SlotListElements(TowerVariables, numTowers);
    ElementsAppend(a, b);
    ElementsAppend(a + b, c);
  }

  lemma ElementsAppend<T>(a: seq<T>, b: seq<T>)
    ensures Elements(a + b) == Elements(a) + Elements(b)
  {
    forall x | x in Elements(a) + Elements(b) ensures x in Elements(a + b) {
      if x in a {
        var i :| 0 <= i < |a| && a[i] == x;
        assert (a + b)[i] == x;
      } else {
        var i :| 0 <= i < |b| && b[i] == x;
        assert (a + b)[|a| + i] == x;
      }
    }
  }

  /** No two columns share a name. */
  lemma ColumnNamesDistinct(numTracks: nat, numTowers: nat)
    ensures Distinct(ColumnNames(numTracks, numTowers))
  {
    var nt, nw := numTracks, numTowers;
    VariableListsArePlain();
    VariableListsDistinct();
    ListsDisjoint();
    SlotListDistinct(TrackVariables, nt);
    SlotListDistinct(TowerVariables, nw);
    SlotListElements(TrackVariables, nt);
    SlotListElements(TowerVariables, nw);
    var a, b, c := JetVariables, SlotList(TrackVariables, nt), SlotList(TowerVariables, nw);
    forall i, j | 0 <= i < j < |a + b + c| ensures (a + b + c)[i] != (a + b + c)[j] {
      if i < |a| && j >= |a| {
        if j < |a| + |b| {
          assert b[j - |a|] in SlotNames(TrackVariables, nt);
          PlainNotSlot(a[i], TrackVariables, nt);
        } else {
          assert c[j - |a| - |b|] in SlotNames(TowerVariables, nw);
          PlainNotSlot(a[i], TowerVariables, nw);
        }
      } else if |a| <= i < |a| + |b| <= j {
        var x, y := b[i - |a|], c[j - |a| - |b|];
        assert x in SlotNames(TrackVariables, nt) && y in SlotNames(TowerVariables, nw);
        var v, k :| v in TrackVariables && 0 <= k < nt && x == Suffixed(v, k);
        InSlotNames(v, k, TowerVariables, nw);
      }
    }
  }

  /** Slot `i` of track variable `m` is column `6 + m * numTracks + i`. */
  lemma TrackColumn(numTracks: nat, numTowers: nat, m: nat, i: nat)
    requires m < |TrackVariables| && i < numTracks
    ensures var k := |JetVariables| + m * numTracks + i;
      k < |ColumnNames(numTracks, numTowers)| && ColumnNames(numTracks, numTowers)[k] == Suffixed(TrackVariables[m], i)
  {
    SlotListIndex(TrackVariables, numTracks, m, i);
  }

  /** Slot `i` of tower variable `m` follows all track slots. */
  lemma TowerColumn(numTracks: nat, numTowers: nat, m: nat, i: nat)
    requires m < |TowerVariables| && i < numTowers
    ensures var k := |JetVariables| + |TrackVariables| * numTracks + m * numTowers + i;
      k < |ColumnNames(numTracks, numTowers)| && ColumnNames(numTracks, numTowers)[k] == Suffixed(TowerVariables[m], i)
  {
    SlotListLength(TrackVariables, numTracks);
    SlotListIndex(TowerVariables, numTowers, m, i);
    ThirdIndex(JetVariables, SlotList(TrackVariables, numTracks), SlotList(TowerVariables, numTowers), m * numTowers + i);
  }

  /** Element `j` of the third of three concatenated sequences. */
  lemma ThirdIndex<T>(a: seq<T>, b: seq<T>, c: seq<T>, j: nat)
    requires j < |c|
    ensures |a| + |b| + j < |a + b + c| && (a + b + c)[|a| + |b| + j] == c[j]
  {
  }
}
