/** The 16-point constellation of V.22bis and the nearest-point slicer, over exact reals. */
module V22Constellation {

  datatype Complex = Complex(re: real, im: real)

  function Plus(a: Complex, b: Complex): (r: Complex) {
    Complex(a.re + b.re, a.im + b.im)
  }

  function Norm2(a: Complex): (r: real) {
    a.re * a.re + a.im * a.im
  }

  /** Point of an index, which is the quadrant times four plus the two inner bits. */
  function Point(idx: nat): (z: Complex)
    requires idx < 16
  {
    match idx
    case 0 => Complex(1.0, 1.0) case 1 => Complex(3.0, 1.0) case 2 => Complex(1.0, 3.0) case 3 => Complex(3.0, 3.0)
    case 4 => Complex(-1.0, 1.0) case 5 => Complex(-1.0, 3.0) case 6 => Complex(-3.0, 1.0) case 7 => Complex(-3.0, 3.0)
    case 8 => Complex(-1.0, -1.0) case 9 => Complex(-3.0, -1.0)
    case 10 => Complex(-1.0, -3.0) case 11 => Complex(-3.0, -3.0)
    case 12 => Complex(1.0, -1.0) case 13 => Complex(1.0, -3.0)
    case 14 => Complex(3.0, -1.0) case _ => Complex(3.0, -3.0)
  }

  /** A turn by k right angles. */
  function Rotate(k: nat, z: Complex): (r: Complex)
    requires k < 4
  {
    match k
    case 0 => z
    case 1 => Complex(-z.im, z.re)
    case 2 => Complex(-z.re, -z.im)
    case _ => Complex(z.im, -z.re)
  }

  /** The constellation is invariant under right-angle turns, which only move the quadrant. */
  lemma RotationMovesQuadrant(k: nat, idx: nat)
    requires k < 4 && idx < 16
    ensures Rotate(k, Point(idx)) == Point((idx + 4 * k) % 16)
  {
  }

  /** The inner bits pick a point of the quadrant on a grid of odd coordinates: the second bit widens the quadrant's own
      first axis, the first bit the other; so the squared radii are 2, 10, 10 and 18. */
  lemma InnerBitsOnGrid(quadrant: nat, inner: nat)
    requires quadrant < 4 && inner < 4
    ensures var across, up := 1.0 + 2.0 * (inner % 2) as real, 1.0 + 2.0 * (inner / 2) as real;
            Point(4 * quadrant + inner) == Rotate(quadrant, Complex(across, up))
    ensures Norm2(Point(4 * quadrant + inner)) == 2.0 + 8.0 * (inner % 2 + inner / 2) as real
  {
  }

  // ---- Slicer ----

  /** The candidates of the slicer's loop: all points, or the inner=01 point of each quadrant. */
  function Candidates(sixteenWay: bool): (n: nat) {
    if sixteenWay then 16 else 4
  }

  function Candidate(sixteenWay: bool, k: nat): (idx: nat)
    requires k < Candidates(sixteenWay)
    ensures idx < 16
  {
    if sixteenWay then k else 4 * k + 1
  }

  function Distance2(z: Complex, idx: nat): (d: real)
    requires idx < 16
  {
    Norm2(Complex(z.re - Point(idx).re, z.im - Point(idx).im))
  }

  const FAR: real := 1000000000000000000000000000000.0

  /** The slicer's choice when it still has candidates k onwards to look at. */
  function SliceFrom(sixteenWay: bool, z: Complex, k: nat, best: nat, bestD: real): (idx: nat)
    requires k <= Candidates(sixteenWay) && best < 16
    ensures idx < 16
    decreases Candidates(sixteenWay) - k
  {
    if k == Candidates(sixteenWay) then best
    else
      var i := Candidate(sixteenWay, k);
      var d := Distance2(z, i);
      if d < bestD then SliceFrom(sixteenWay, z, k + 1, i, d) else SliceFrom(sixteenWay, z, k + 1, best, bestD)
  }

  function SliceOf(sixteenWay: bool, z: Complex): (idx: nat)
    ensures idx < 16
  {
    SliceFrom(sixteenWay, z, 0, 0, FAR)
  }

  method Slice(sixteenWay: bool, z: Complex) returns (best: nat)
    ensures best == SliceOf(sixteenWay, z)
  {
    hide Distance2;
    best := 0;
    var bestD := FAR;
    if sixteenWay {
      for i := 0 to 16
        invariant best < 16 && SliceOf(sixteenWay, z) == SliceFrom(sixteenWay, z, i, best, bestD)
      {
        var d := Distance2(z, i);
        if d < bestD { bestD := d; best := i; }
      }
    } else {
      for q := 0 to 4
        invariant best < 16 && SliceOf(sixteenWay, z) == SliceFrom(sixteenWay, z, q, best, bestD)
      {
        var i := 4 * q + 1;
        var d := Distance2(z, i);
        if d < bestD { bestD := d; best := i; }
      }
    }
  }

  /** The point is strictly nearer to z than every other candidate. */
  predicate StrictlyNearest(sixteenWay: bool, z: Complex, idx: nat)
    requires idx < 16
  {
    && (exists k: nat | k < Candidates(sixteenWay) :: Candidate(sixteenWay, k) == idx)
    && Distance2(z, idx) < FAR
    && forall k: nat | k < Candidates(sixteenWay) && Candidate(sixteenWay, k) != idx ::
         Distance2(z, idx) < Distance2(z, Candidate(sixteenWay, k))
  }

  lemma {:induction false} SliceFromFindsNearest(sixteenWay: bool, z: Complex, k: nat, best: nat, bestD: real, idx: nat)
    requires k <= Candidates(sixteenWay) && best < 16 && idx < 16 && StrictlyNearest(sixteenWay, z, idx)
    requires if exists j: nat | j < k :: Candidate(sixteenWay, j) == idx
             then best == idx && bestD == Distance2(z, idx) else Distance2(z, idx) < bestD
    ensures SliceFrom(sixteenWay, z, k, best, bestD) == idx
    decreases Candidates(sixteenWay) - k
  {
    hide Distance2;
    if k < Candidates(sixteenWay) {
      var i := Candidate(sixteenWay, k);
      var d := Distance2(z, i);
      if i == idx {
        assert forall j: nat | j < k :: Candidate(sixteenWay, j) != idx;
      }
      if d < bestD {
        SliceFromFindsNearest(sixteenWay, z, k + 1, i, d, idx);
      } else {
        SliceFromFindsNearest(sixteenWay, z, k + 1, best, bestD, idx);
      }
    }
  }

  /** Among the first n candidates the k-th is nearest to z, and the first of those as near. */
  predicate FirstNearest(sixteenWay: bool, z: Complex, n: nat, k: nat)
    requires n <= Candidates(sixteenWay)
  {
    && k < n && Distance2(z, Candidate(sixteenWay, k)) < FAR
    && forall j: nat | j < n ::
         var d, best := Distance2(z, Candidate(sixteenWay, j)), Distance2(z, Candidate(sixteenWay, k));
         d >= best && (j < k ==> d > best)
  }

  /** No candidate is in sight. */
  predicate AllFar(sixteenWay: bool, z: Complex, n: nat)
    requires n <= Candidates(sixteenWay)
  {
    forall j: nat | j < n :: Distance2(z, Candidate(sixteenWay, j)) >= FAR
  }

  lemma OneCandidateMore(sixteenWay: bool, z: Complex, n: nat, k: nat)
    requires n < Candidates(sixteenWay) && (k == n || FirstNearest(sixteenWay, z, n, k))
    requires k == n ==> AllFar(sixteenWay, z, n)
    ensures var d := Distance2(z, Candidate(sixteenWay, n));
            var best := if k == n then FAR else Distance2(z, Candidate(sixteenWay, k));
            if d < best then FirstNearest(sixteenWay, z, n + 1, n)
            else if k == n then AllFar(sixteenWay, z, n + 1)
            else FirstNearest(sixteenWay, z, n + 1, k)
  {
    hide Distance2, Candidate, Candidates;
  }

  lemma {:induction false} SliceFromIsFirst(sixteenWay: bool, z: Complex, n: nat, k: nat, best: nat, bestD: real)
    requires n <= Candidates(sixteenWay) && best < 16 && k <= n
    requires if k == n then best == 0 && bestD == FAR && AllFar(sixteenWay, z, n)
             else FirstNearest(sixteenWay, z, n, k) && best == Candidate(sixteenWay, k) && bestD == Distance2(z, best)
    ensures var all := Candidates(sixteenWay);
            var idx := SliceFrom(sixteenWay, z, n, best, bestD);
            || (AllFar(sixteenWay, z, all) && idx == 0)
            || exists i: nat | i < all :: FirstNearest(sixteenWay, z, all, i) && idx == Candidate(sixteenWay, i)
    decreases Candidates(sixteenWay) - n
  {
    hide Distance2, Candidate, Candidates, FirstNearest, AllFar;
    if n < Candidates(sixteenWay) {
      OneCandidateMore(sixteenWay, z, n, k);
      var d := Distance2(z, Candidate(sixteenWay, n));
      if d < bestD {
        SliceFromIsFirst(sixteenWay, z, n + 1, n, Candidate(sixteenWay, n), d);
      } else {
        SliceFromIsFirst(sixteenWay, z, n + 1, if k == n then n + 1 else k, best, bestD);
      }
    }
  }

  /** The slicer's choice for every input: the nearest candidate, the first of several, and point 0 if all are out of
      sight. */
  lemma SliceIsFirstNearest(sixteenWay: bool, z: Complex)
    ensures var all, idx := Candidates(sixteenWay), SliceOf(sixteenWay, z);
            || (AllFar(sixteenWay, z, all) && idx == 0)
            || exists i: nat | i < all :: FirstNearest(sixteenWay, z, all, i) && idx == Candidate(sixteenWay, i)
  {
    hide Distance2;
    SliceFromIsFirst(sixteenWay, z, 0, 0, 0, FAR);
  }

  // ---- Decision regions ----

  /** Noise that cannot move a point out of its decision region. */
  predicate Tolerable(sixteenWay: bool, n: Complex) {
    if sixteenWay then -1.0 < n.re < 1.0 && -1.0 < n.im < 1.0 else Norm2(n) < 5.0
  }

  predicate IsCandidate(sixteenWay: bool, idx: nat) {
    idx < 16 && (sixteenWay || idx % 4 == 1)
  }

  lemma ProductPositive(a: real, b: real)
    requires a > 0.0 && b > 0.0
    ensures a * b > 0.0
  {
  }

  /** What one axis contributes to the gap between two squared distances: delta apart, with noise n. */
  function AxisGap(delta: real, n: real): (gap: real) {
    delta * delta - 2.0 * (delta * n)
  }

  lemma ScaledNoise(delta: real, n: real)
    requires -1.0 < n < 1.0 && (delta == 0.0 || delta >= 2.0 || delta <= -2.0)
    ensures AxisGap(delta, n) >= 0.0 && (delta != 0.0 ==> AxisGap(delta, n) > 0.0)
  {
    if delta >= 2.0 {
      ProductPositive(delta, delta - 2.0 * n);
      assert delta * (delta - 2.0 * n) == AxisGap(delta, n);
    } else if delta <= -2.0 {
      ProductPositive(-delta, 2.0 * n - delta);
      assert -delta * (2.0 * n - delta) == AxisGap(delta, n);
    }
  }

  /** Twice an axis gap, as a square that is never negative less the square of twice the noise. */
  lemma AxisBound(delta: real, n: real)
    ensures 2.0 * AxisGap(delta, n) >= delta * delta - 4.0 * (n * n)
  {
    var u := delta - 2.0 * n;
    assert u * u >= 0.0;
    assert u * u == delta * delta - 4.0 * (delta * n) + 4.0 * (n * n);
  }

  lemma CauchyBound(delta: Complex, n: Complex)
    requires Norm2(n) < 5.0 && Norm2(delta) >= 20.0
    ensures AxisGap(delta.re, n.re) + AxisGap(delta.im, n.im) > 0.0
  {
    hide AxisGap;
    AxisBound(delta.re, n.re);
    AxisBound(delta.im, n.im);
  }

  /** How one squared coordinate of the distance changes between two candidates. */
  lemma AxisDifference(p: real, q: real, n: real)
    ensures (p + n - q) * (p + n - q) - (p + n - p) * (p + n - p) == AxisGap(q - p, n)
  {
    var delta := q - p;
    assert p + n - q == n - delta && p + n - p == n;
    assert (n - delta) * (n - delta) == n * n - 2.0 * (delta * n) + delta * delta;
  }

  lemma PointsApart(sixteenWay: bool, i: nat, j: nat)
    requires IsCandidate(sixteenWay, i) && IsCandidate(sixteenWay, j) && i != j
    ensures var dx, dy := Point(j).re - Point(i).re, Point(j).im - Point(i).im;
            && (dx == 0.0 || dx >= 2.0 || dx <= -2.0) && (dy == 0.0 || dy >= 2.0 || dy <= -2.0)
            && (dx != 0.0 || dy != 0.0)
            && (!sixteenWay ==> Norm2(Complex(dx, dy)) >= 20.0)
  {
  }

  lemma OthersAreFarther(sixteenWay: bool, i: nat, j: nat, n: Complex)
    requires IsCandidate(sixteenWay, i) && IsCandidate(sixteenWay, j) && i != j && Tolerable(sixteenWay, n)
    ensures Distance2(Plus(Point(i), n), i) < Distance2(Plus(Point(i), n), j)
  {
    hide Point, AxisGap;
    var p, q := Point(i), Point(j);
    var delta := Complex(q.re - p.re, q.im - p.im);
    PointsApart(sixteenWay, i, j);
    assert AxisGap(delta.re, n.re) + AxisGap(delta.im, n.im) > 0.0 by {
      hide Norm2;
      if sixteenWay {
        ScaledNoise(delta.re, n.re);
        ScaledNoise(delta.im, n.im);
      } else {
        CauchyBound(delta, n);
      }
    }
    DistanceAlong(Plus(p, n), i, p);
    DistanceAlong(Plus(p, n), j, q);
    AxisDifference(p.re, q.re, n.re);
    AxisDifference(p.im, q.im, n.im);
  }

  lemma DistanceAlong(z: Complex, idx: nat, q: Complex)
    requires idx < 16 && q == Point(idx)
    ensures Distance2(z, idx) == (z.re - q.re) * (z.re - q.re) + (z.im - q.im) * (z.im - q.im)
  {
    hide Point;
  }

  lemma NoiseIsNear(sixteenWay: bool, i: nat, n: Complex)
    requires i < 16 && Tolerable(sixteenWay, n)
    ensures Distance2(Plus(Point(i), n), i) < FAR
  {
    hide Point;
    if sixteenWay {
      assert n.re * n.re <= 1.0 && n.im * n.im <= 1.0;
    }
  }

  /** The slicer recovers the transmitted index under any right-angle turn of the carrier phase and any
      noise inside the decision region. */
  lemma SliceRecovers(sixteenWay: bool, k: nat, idx: nat, n: Complex)
    requires k < 4 && IsCandidate(sixteenWay, idx) && Tolerable(sixteenWay, n)
    ensures SliceOf(sixteenWay, Plus(Rotate(k, Point(idx)), n)) == (idx + 4 * k) % 16
  {
    hide Point, Distance2, Rotate;
    var turned := (idx + 4 * k) % 16;
    RotationMovesQuadrant(k, idx);
    assert IsCandidate(sixteenWay, turned);
    var z := Plus(Point(turned), n);
    NoiseIsNear(sixteenWay, turned, n);
    forall c: nat | c < Candidates(sixteenWay) && Candidate(sixteenWay, c) != turned
      ensures Distance2(z, turned) < Distance2(z, Candidate(sixteenWay, c))
    {
      OthersAreFarther(sixteenWay, turned, Candidate(sixteenWay, c), n);
    }
    assert Candidate(sixteenWay, if sixteenWay then turned else turned / 4) == turned;
    SliceFromFindsNearest(sixteenWay, z, 0, 0, FAR, turned);
  }
}
