/**
 * The per-jet track loop of `CalculateJetShapes` (Examples/flat_helper.py),
 * repeated line for line in Examples/CreateJetShapes.C.
 *
 * Tracks with |eta| above 20 are skipped. For the others the loop keeps the
 * two largest transverse momenta seen so far (both start at -999), the sum
 * and the sum of squares of the momenta, the radial moment and a count.
 * `pi` and `sqrt` come from the floating-point library and are parameters.
 */
module JetShapes {

  /** One entry of the `treeJets` tree, as far as the shape calculation reads it. */
  datatype Entry = Entry(jetPt: real, jetEta: real, jetPhi: real, jetMass: real, ntracks: int, ntowers: int,
                         trackPt: seq<real>, trackEta: seq<real>, trackPhi: seq<real>)

  /** The floating-point constant and function the radial moment needs. */
  datatype Geometry = Geometry(pi: real, sqrt: real -> real)

  /** The track arrays hold `ntracks` entries (the input format guarantees it). */
  predicate WellFormed(e: Entry)
  {
    e.ntracks <= |e.trackPt| && e.ntracks <= |e.trackEta| && e.ntracks <= |e.trackPhi|
  }

  /** Number of tracks the loop visits: `range(0, ntracks)` is empty when `ntracks` is negative. */
  function TrackCount(e: Entry): nat
  {
    if e.ntracks < 0 then 0 else e.ntracks
  }

  function Abs(x: real): real
  {
    if x < 0.0 then -x else x
  }

  const EtaCut: real := 20.0
  /** The value both leading momenta start from. */
  const Unset: real := -999.0

  /** Track `i` passes the pseudorapidity cut. */
  predicate Accepted(e: Entry, i: nat)
    requires WellFormed(e) && i < TrackCount(e)
  {
    !(Abs(e.trackEta[i]) > EtaCut)
  }

  /** The radial moment divides by `jetPt`: it must be non-zero unless no track passes the cut. */
  predicate Computable(e: Entry)
  {
    WellFormed(e) && (e.jetPt != 0.0 || forall i :: 0 <= i < TrackCount(e) ==> !Accepted(e, i))
  }

  /** The momenta of the accepted tracks among the first `n`, in track order. */
  function AcceptedPts(e: Entry, n: nat): seq<real>
    requires WellFormed(e) && n <= TrackCount(e)
  {
    if n == 0 then []
    else AcceptedPts(e, n - 1) + (if Accepted(e, n - 1) then [e.trackPt[n - 1]] else [])
  }

  function Sum(xs: seq<real>): real
  {
    if |xs| == 0 then 0.0 else Sum(xs[..|xs| - 1]) + xs[|xs| - 1]
  }

  function SumSquares(xs: seq<real>): real
  {
    if |xs| == 0 then 0.0 else SumSquares(xs[..|xs| - 1]) + xs[|xs| - 1] * xs[|xs| - 1]
  }

  // ---------------------------------------------------------------------
  // Leading and subleading momentum
  // ---------------------------------------------------------------------

  datatype TopTwo = TopTwo(leading: real, subleading: real)

  /** One step of the leading/subleading update. */
  function Update(t: TopTwo, x: real): TopTwo
  {
    if x > t.leading then TopTwo(x, t.leading)
    else if x > t.subleading then TopTwo(t.leading, x)
    else t
  }

  /** The pair the update leaves after the momenta `xs`, starting from (-999, -999). */
  function Top(xs: seq<real>): TopTwo
  {
    if |xs| == 0 then TopTwo(Unset, Unset) else Update(Top(xs[..|xs| - 1]), xs[|xs| - 1])
  }

  /**
   * `t` holds the largest and the second largest of -999, -999 and `xs`,
   * ties counted: no momentum exceeds the leading one, no two exceed the
   * subleading one, and each is -999 or is attained (the subleading one at a
   * different track than the leading one).
   */
  ghost predicate IsTopTwo(xs: seq<real>, t: TopTwo)
  {
    Unset <= t.subleading <= t.leading
    && (forall k :: 0 <= k < |xs| ==> xs[k] <= t.leading)
    && (forall j, k :: 0 <= j < k < |xs| ==> xs[j] <= t.subleading || xs[k] <= t.subleading)
    && (t.leading == Unset || exists k :: 0 <= k < |xs| && xs[k] == t.leading)
    && (t.subleading == Unset || exists j, k :: 0 <= j < |xs| && 0 <= k < |xs| && j != k && xs[k] == t.leading && xs[j] == t.subleading)
  }

  /** One more momentum keeps the characterization. */
  lemma UpdateStep(xs: seq<real>, x: real, t: TopTwo)
    requires IsTopTwo(xs, t)
    ensures IsTopTwo(xs + [x], Update(t, x))
  {
    if x > t.leading {
      NewLeadingStep(xs, x, t);
    } else if x > t.subleading {
      NewSubleadingStep(xs, x, t);
    } else {
      KeptStep(xs, x, t);
    }
  }

  /** A momentum above the leading one becomes leading, and the old leading one subleading. */
  lemma NewLeadingStep(xs: seq<real>, x: real, t: TopTwo)
    requires IsTopTwo(xs, t) && x > t.leading
    ensures IsTopTwo(xs + [x], TopTwo(x, t.leading))
  {
    var ys, u := xs + [x], TopTwo(x, t.leading);
    var n := |xs|;
    assert forall k :: 0 <= k < n ==> ys[k] == xs[k];
    assert ys[n] == u.leading;
    if t.leading != Unset {
      var k :| 0 <= k < n && xs[k] == t.leading;
      assert ys[k] == u.subleading;
    }
    forall j, k | 0 <= j < k < |ys| ensures ys[j] <= u.subleading || ys[k] <= u.subleading {
      if k < n {
        assert ys[k] <= t.leading;
      }
    }
  }

  /** A momentum between the two replaces the subleading one. */
  lemma NewSubleadingStep(xs: seq<real>, x: real, t: TopTwo)
    requires IsTopTwo(xs, t) && x <= t.leading && x > t.subleading
    ensures IsTopTwo(xs + [x], TopTwo(t.leading, x))
  {
    var ys, u := xs + [x], TopTwo(t.leading, x);
    var n := |xs|;
    assert forall k :: 0 <= k < n ==> ys[k] == xs[k];
    if t.leading != Unset {
      var k :| 0 <= k < n && xs[k] == t.leading;
      assert ys[k] == u.leading && ys[n] == u.subleading;
    } else {
      assert false;
    }
    forall j, k | 0 <= j < k < |ys| ensures ys[j] <= u.subleading || ys[k] <= u.subleading {
      if k < n {
        assert xs[j] <= t.subleading || xs[k] <= t.subleading;
      }
    }
  }

  /** A momentum not above the subleading one changes nothing. */
  lemma KeptStep(xs: seq<real>, x: real, t: TopTwo)
    requires IsTopTwo(xs, t) && x <= t.subleading
    ensures IsTopTwo(xs + [x], t)
  {
    var ys := xs + [x];
    var n := |xs|;
    assert forall k :: 0 <= k < n ==> ys[k] == xs[k];
    if t.leading != Unset {
      var k :| 0 <= k < n && xs[k] == t.leading;
      assert ys[k] == t.leading;
    }
    if t.subleading != Unset {
      var j, k :| 0 <= j < n && 0 <= k < n && j != k && xs[k] == t.leading && xs[j] == t.subleading;
      assert ys[k] == t.leading && ys[j] == t.subleading;
    }
    forall j, k | 0 <= j < k < |ys| ensures ys[j] <= t.subleading || ys[k] <= t.subleading {
      if k < n {
        assert xs[j] <= t.subleading || xs[k] <= t.subleading;
      }
    }
  }

  /** The update computes the two largest momenta, ties counted. */
  lemma {:induction false} TopIsTopTwo(xs: seq<real>)
    ensures IsTopTwo(xs, Top(xs))
  {
    if |xs| > 0 {
      var init := xs[..|xs| - 1];
      TopIsTopTwo(init);
      assert xs == init + [xs[|xs| - 1]];
      UpdateStep(init, xs[|xs| - 1], Top(init));
    }
  }

  /** The characterization fixes the pair: there is only one. */
  lemma TopTwoUnique(xs: seq<real>, t1: TopTwo, t2: TopTwo)
    requires IsTopTwo(xs, t1) && IsTopTwo(xs, t2)
    ensures t1 == t2
  {
    assert t1.leading == t2.leading;
  }

  // ---------------------------------------------------------------------
  // The accumulators
  // ---------------------------------------------------------------------

  /** `min(abs(jetPhi - trackPhi), 2*pi - abs(jetPhi - trackPhi))`. */
  function DeltaPhi(e: Entry, g: Geometry, i: nat): real
    requires WellFormed(e) && i < TrackCount(e)
  {
    var d := Abs(e.jetPhi - e.trackPhi[i]);
    if 2.0 * g.pi - d < d then 2.0 * g.pi - d else d
  }

  function DeltaR(e: Entry, g: Geometry, i: nat): real
    requires WellFormed(e) && i < TrackCount(e)
  {
    var dphi, deta := DeltaPhi(e, g, i), e.jetEta - e.trackEta[i];
    g.sqrt(dphi * dphi + deta * deta)
  }

  /** The radial moment over the first `n` tracks: the sum of `pt / jetPt * deltaR` over the accepted ones. */
  function Radial(e: Entry, g: Geometry, n: nat): real
    requires Computable(e) && n <= TrackCount(e)
  {
    if n == 0 then 0.0
    else Radial(e, g, n - 1) + (if Accepted(e, n - 1) then e.trackPt[n - 1] / e.jetPt * DeltaR(e, g, n - 1) else 0.0)
  }

  datatype Accumulators = Accumulators(leading: real, subleading: real, sum: real, sumSquares: real,
                                       numConst: nat, radial: real)

  /** What the loop holds after the first `n` tracks, stated through the accepted momenta. */
  function Accumulated(e: Entry, g: Geometry, n: nat): Accumulators
    requires Computable(e) && n <= TrackCount(e)
  {
    var pts := AcceptedPts(e, n);
    Accumulators(Top(pts).leading, Top(pts).subleading, Sum(pts), SumSquares(pts), |pts|, Radial(e, g, n))
  }

  /**
   * The accumulator loop of a jet: every accumulator starts afresh; after
   * it the leading and subleading momenta are the top two of the accepted
   * tracks, `numConst` counts them, and the sums run over them.
   */
  method AccumulateTracks(e: Entry, g: Geometry) returns (acc: Accumulators)
    requires Computable(e)
    ensures acc == Accumulated(e, g, TrackCount(e))
    ensures acc.subleading <= acc.leading
  {
    var leading, subleading := Unset, Unset;
    var sum, sumSquares := 0.0, 0.0;
    var numConst := 0;
    var radial := 0.0;
    var i := 0;
    while i < e.ntracks
      invariant 0 <= i <= TrackCount(e) && WellFormed(e)
      invariant Accumulators(leading, subleading, sum, sumSquares, numConst, radial) == Fold(e, g, i)
      invariant subleading <= leading
    {
      if Abs(e.trackEta[i]) > EtaCut {
        i := i + 1;
        continue;
      }
      assert Accepted(e, i);
      ghost var before := Accumulators(leading, subleading, sum, sumSquares, numConst, radial);
      var x := e.trackPt[i];
      var deltaR := DeltaR(e, g, i);
      if x > leading {
        subleading := leading;
        leading := x;
      } else if x > subleading {
        subleading := x;
      }
      sum := sum + x;
      sumSquares := sumSquares + x * x;
      radial := radial + x / e.jetPt * deltaR;
      numConst := numConst + 1;
      assert Accumulators(leading, subleading, sum, sumSquares, numConst, radial) == Add(before, x, x / e.jetPt * deltaR);
      i := i + 1;
    }
    acc := Accumulators(leading, subleading, sum, sumSquares, numConst, radial);
    FoldIsAccumulated(e, g, TrackCount(e));
  }

  /** The accumulators after one more accepted momentum `x`, whose radial term is `r`. */
  function Add(a: Accumulators, x: real, r: real): Accumulators
  {
    var t := Update(TopTwo(a.leading, a.subleading), x);
    Accumulators(t.leading, t.subleading, a.sum + x, a.sumSquares + x * x, a.numConst + 1, a.radial + r)
  }

  /** The accumulators track by track, as the loop updates them. */
  function Fold(e: Entry, g: Geometry, n: nat): Accumulators
    requires Computable(e) && n <= TrackCount(e)
  {
    if n == 0 then Accumulators(Unset, Unset, 0.0, 0.0, 0, 0.0)
    else if !Accepted(e, n - 1) then Fold(e, g, n - 1)
    else Add(Fold(e, g, n - 1), e.trackPt[n - 1], e.trackPt[n - 1] / e.jetPt * DeltaR(e, g, n - 1))
  }

  /** Updating track by track yields the top two, the sums and the count of the accepted momenta. */
  lemma {:induction false} FoldIsAccumulated(e: Entry, g: Geometry, n: nat)
    requires Computable(e) && n <= TrackCount(e)
    ensures Fold(e, g, n) == Accumulated(e, g, n)
  {
    if n > 0 {
      var x := e.trackPt[n - 1];
      FoldIsAccumulated(e, g, n - 1);
      AccumulatedStep(e, g, n - 1);
      if Accepted(e, n - 1) {
        assert Fold(e, g, n) == Add(Fold(e, g, n - 1), x, x / e.jetPt * DeltaR(e, g, n - 1));
      } else {
        assert Fold(e, g, n) == Fold(e, g, n - 1);
      }
    }
  }

  /** One pass of the loop body: a rejected track changes nothing, an accepted one adds its momentum to every accumulator. */
  lemma AccumulatedStep(e: Entry, g: Geometry, i: nat)
    requires Computable(e) && i < TrackCount(e)
    ensures !Accepted(e, i) ==> Accumulated(e, g, i + 1) == Accumulated(e, g, i)
    ensures Accepted(e, i) ==> Accumulated(e, g, i + 1) == Add(Accumulated(e, g, i), e.trackPt[i], e.trackPt[i] / e.jetPt * DeltaR(e, g, i))
  {
    var pts, x := AcceptedPts(e, i), e.trackPt[i];
    if Accepted(e, i) {
      assert AcceptedPts(e, i + 1) == pts + [x];
      assert (pts + [x])[..|pts|] == pts;
    } else {
      assert AcceptedPts(e, i + 1) == pts;
    }
  }

  /** There are as many accepted momenta as tracks that pass the cut. */
  lemma {:induction false} AcceptedPtsCount(e: Entry, n: nat)
    requires WellFormed(e) && n <= TrackCount(e)
    ensures |AcceptedPts(e, n)| == |set i | 0 <= i < n && Accepted(e, i)|
  {
    if n > 0 {
      AcceptedPtsCount(e, n - 1);
      AcceptedSetStep(e, n);
    }
  }

  /** The tracks among the first `n` that pass the cut are those among the first `n - 1`, and track `n - 1` if it passes. */
  lemma AcceptedSetStep(e: Entry, n: nat)
    requires WellFormed(e) && 0 < n <= TrackCount(e)
    ensures (set i | 0 <= i < n && Accepted(e, i)) ==
            (set i | 0 <= i < n - 1 && Accepted(e, i)) + (if Accepted(e, n - 1) then {n - 1} else {})
  {
  }

  /** A momentum is accepted exactly when some track with that momentum passes the cut. */
  lemma {:induction false} AcceptedPtsMembers(e: Entry, n: nat)
    requires WellFormed(e) && n <= TrackCount(e)
    ensures forall x :: x in AcceptedPts(e, n) <==> exists i :: 0 <= i < n && Accepted(e, i) && e.trackPt[i] == x
  {
    if n > 0 {
      AcceptedPtsMembers(e, n - 1);
      assert AcceptedPts(e, n) == AcceptedPts(e, n - 1) + (if Accepted(e, n - 1) then [e.trackPt[n - 1]] else []);
    }
  }

  // ---------------------------------------------------------------------
  // The shapes
  // ---------------------------------------------------------------------

  /** `ShapeLeSub`: the leading minus the subleading momentum with two or more accepted tracks, else 1. */
  function LeSub(acc: Accumulators): real
  {
    if acc.numConst > 1 then acc.leading - acc.subleading else 1.0
  }

  /** `ShapeDispersion`: `sqrt(sum of squares) / sum`, and 0 when the sum is 0. */
  function Dispersion(acc: Accumulators, g: Geometry): real
  {
    if acc.sum != 0.0 then g.sqrt(acc.sumSquares) / acc.sum else 0.0
  }

  /** The shapes of one jet, in the column order mass, ntowers, radial, dispersion. */
  function ShapeRow(e: Entry, g: Geometry): (row: seq<real>)
    requires Computable(e)
    ensures |row| == |ShapeColumns|
  {
    var acc := Accumulated(e, g, TrackCount(e));
    [e.jetMass, e.ntowers as real, acc.radial, Dispersion(acc, g)]
  }

  /** The column names of the shape table, in the order of `ShapeRow`. */
  const ShapeColumns: seq<string> := ["mass", "ntowers", "radial", "dispersion"]

  /**
   * LeSub is never negative with two or more accepted tracks, and the
   * dispersion is 0 for a jet without accepted tracks.
   */
  lemma ShapeFacts(e: Entry, g: Geometry)
    requires Computable(e)
    ensures var acc := Accumulated(e, g, TrackCount(e));
      (acc.numConst > 1 ==> LeSub(acc) == acc.leading - acc.subleading >= 0.0)
      && (acc.numConst <= 1 ==> LeSub(acc) == 1.0)
      && (acc.numConst == 0 ==> Dispersion(acc, g) == 0.0)
  {
    TopIsTopTwo(AcceptedPts(e, TrackCount(e)));
  }
}
