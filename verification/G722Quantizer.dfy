/** Quantisers, inverse quantisers and scale-factor adaptation of both sub-bands. */
module G722Quantizer {
  import opened FixedPoint
  import opened G722Tables

  /** The step sizes the codec can ever use; see G722Band.Adapted. */
  predicate IsStep(det: int) {
    8 <= det <= 16384
  }

  // ---- Lower sub-band: 60 levels ----

  /** The decision threshold above cell k, for the current step size. */
  function Threshold(k: nat, det: int): (t: int)
    requires k <= 30
  {
    Mult16(Shl3(Q6(k)), det)
  }

  /** The magnitude that is compared with the thresholds: one's complement for a negative difference. */
  function Magnitude(e: int): (wd: int) {
    if e < 0 then 32767 - e % 32768 else e
  }

  /** The cell the linear search stops at when it starts from cell k. */
  function CellFrom(k: nat, wd: int, det: int): (cell: nat)
    requires k <= 30
    ensures k <= cell <= 30
    ensures cell > k ==> Threshold(cell - 1, det) <= wd
    ensures cell < 30 ==> wd < Threshold(cell, det)
    decreases 30 - k
  {
    if Threshold(k, det) <= wd && k < 30 then CellFrom(k + 1, wd, det) else k
  }

  function Cell(e: int, det: int): (cell: nat)
    requires IsInt16(e)
    ensures 1 <= cell <= 30
  {
    assert Threshold(0, det) == 0;
    CellFrom(0, Magnitude(e), det)
  }

  /** The difference lies beyond the outermost decision threshold. */
  predicate Overload(e: int, det: int) {
    Threshold(30, det) <= Magnitude(e)
  }

  /** The six-bit code for a difference. */
  function QuantLow(el: int, det: int): (il: int)
    requires IsInt16(el)
    ensures 4 <= il < 64
  {
    CodeOf(el < 0, Cell(el, det))
  }

  method Quantl(el: int, det: int) returns (il: int)
    requires IsInt16(el)
    ensures il == QuantLow(el, det)
  {
    hide Q6, MisilNegative, MisilPositive, Mult16, Shl3;
    var sil := if el < 0 then -1 else 0;
    var wd := if sil == 0 then el else 32767 - el % 32768;
    var mil := 0;
    var val := Mult16(Shl3(Q6(0)), det);
    while val <= wd
      invariant 0 <= mil <= 30 && val == Threshold(mil, det)
      invariant CellFrom(mil, wd, det) == Cell(el, det)
      decreases 30 - mil
    {
      if mil == 30 { break; }
      mil := mil + 1;
      val := Mult16(Shl3(Q6(mil)), det);
    }
    il := if sil == -1 then MisilNegative(mil) else MisilPositive(mil);
  }

  /** Four-bit inverse quantiser: what both predictors are fed. It looks at il / 4 only. */
  function InvQuantA(il: nat, det: int): (dlt: int)
    requires il < 64
    ensures IsInt16(dlt)
  {
    var ril := il / 4;
    var wd1 := Shl3(Oq4(Ril4(ril)));
    Mult16(det, if Risil(ril) == 0 then wd1 else Neg16(wd1))
  }

  /** Six-bit inverse quantiser: what the decoder outputs. */
  function InvQuantB(ilr: nat, det: int): (dl: int)
    requires ilr < 64
    ensures IsInt16(dl)
  {
    var wd1 := Shl3(Oq6(Ril6(ilr)));
    Mult16(det, if Risi6(ilr) == 0 then wd1 else Neg16(wd1))
  }

  // ---- Reconstruction error ----

  lemma {:induction false} FloorMonotone(a: int, b: int)
    requires a <= b
    ensures a / 32768 <= b / 32768
  {
  }

  /** Within the range of step sizes a threshold never saturates: it is a floor of an exact product. */
  lemma ThresholdIsExact(k: nat, det: int)
    requires k <= 30 && IsStep(det)
    ensures Threshold(k, det) == Q6(k) * 8 * det / 32768
    ensures 0 <= Threshold(k, det) <= 12800
    ensures k == 30 ==> Threshold(k, det) == 25600 * det / 32768
  {
    hide Q6;
    ProductBounds(Q6(k) * 8, 25600, det, 16384);
    FloorMonotone(Q6(k) * 8 * det, 25600 * 16384);
  }

  lemma ProductBounds(x: nat, xMax: nat, y: nat, yMax: nat)
    requires x <= xMax && y <= yMax
    ensures 0 <= x * y <= xMax * yMax
  {
    assert x * y <= xMax * y;
    assert xMax * y <= xMax * yMax;
  }

  /** Each reconstruction level lies between the thresholds of its cell. */
  lemma LevelInsideCell(k: nat)
    requires 1 <= k <= 30
    ensures Q6(k - 1) <= Oq6(k) <= Q6(k)
  {
  }

  /** What the decoder makes of the code for a cell: the cell's level, scaled, with the sign. */
  lemma DecodedLevel(negative: bool, k: nat, det: int)
    requires 1 <= k <= 30 && IsStep(det)
    ensures var x := Oq6(k) * 8 * det;
            InvQuantB(CodeOf(negative, k), det) == if negative then -x / 32768 else x / 32768
  {
    hide Oq6, CodeOf, Ril6, Risi6;
    CodeDecodes(negative, k);
    var x := Oq6(k) * 8;
    ProductBounds(x, 25600, det, 16384);
    assert det * x == x * det && det * -x == -(x * det);
    FloorMonotone(x * det, 25600 * 16384);
    FloorMonotone(-25600 * 16384, -(x * det));
  }

  /** Floor of a negated value lies at most one unit below the negated floor. */
  lemma FloorOfNegation(x: int)
    ensures -(x / 32768) - 1 <= -x / 32768 <= -(x / 32768)
  {
  }

  /** Scaling keeps three numbers in order. */
  lemma ScaledOrder(lo: nat, x: nat, hi: nat, det: nat)
    requires lo <= x <= hi
    ensures lo * 8 * det / 32768 <= x * 8 * det / 32768 <= hi * 8 * det / 32768
  {
    assert 0 <= (x - lo) * 8 * det && 0 <= (hi - x) * 8 * det;
    FloorMonotone(lo * 8 * det, x * 8 * det);
    FloorMonotone(x * 8 * det, hi * 8 * det);
  }

  /** The six-bit reconstruction lies in the decision cell the encoder chose, up to one unit of
      floor rounding on the negative side. */
  lemma ReconstructionInCell(el: int, det: int)
    requires IsInt16(el) && IsStep(det)
    ensures var c, dl := Cell(el, det), InvQuantB(QuantLow(el, det), det);
            if el >= 0 then Threshold(c - 1, det) <= dl <= Threshold(c, det)
            else Threshold(c - 1, det) <= -dl <= Threshold(c, det) + 1
  {
    hide Q6, Oq6, CodeOf, Threshold, InvQuantB;
    var c := Cell(el, det);
    DecodedLevel(el < 0, c, det);
    LevelInsideCell(c);
    ThresholdIsExact(c - 1, det);
    ThresholdIsExact(c, det);
    ScaledOrder(Q6(c - 1), Oq6(c), Q6(c), det);
    FloorOfNegation(Oq6(c) * 8 * det);
  }

  /** Magnitude of the outermost reconstruction level on one side. */
  function OutermostLevel(negative: bool, det: int): (level: nat) {
    Abs(InvQuantB(CodeOf(negative, 30), det))
  }

  /** The difference reaches no further than one outermost cell beyond the outermost level on its side. */
  predicate InReach(el: int, det: int) {
    Abs(el) <= OutermostLevel(el < 0, det) + Threshold(30, det) - Threshold(29, det)
  }

  /** Exactly when the error stays within the width of the chosen cell: the difference is in reach. */
  lemma ErrorBoundExactly(el: int, det: int)
    requires IsInt16(el) && IsStep(det)
    ensures var c := Cell(el, det);
            Abs(el - InvQuantB(QuantLow(el, det), det)) <= Threshold(c, det) - Threshold(c - 1, det)
            <==> InReach(el, det)
  {
    hide Threshold, InvQuantB, CodeOf, Cell;
    var c := Cell(el, det);
    CellBounds(el, det);
    ThresholdIsExact(c - 1, det);
    ThresholdIsExact(29, det);
    ThresholdsGrow(c, det);
    OutermostCell(el < 0, det);
    ReconstructionInCell(el, det);
  }

  /** The chosen cell brackets the magnitude of the difference. */
  lemma CellBounds(el: int, det: int)
    requires IsInt16(el) && IsStep(det)
    ensures Magnitude(el) == if el < 0 then -1 - el else el
    ensures Threshold(Cell(el, det) - 1, det) <= Magnitude(el)
    ensures Cell(el, det) < 30 ==> Magnitude(el) < Threshold(Cell(el, det), det)
  {
    hide Threshold;
    assert Threshold(0, det) == 0 by { ThresholdIsExact(0, det); }
  }

  lemma ThresholdsGrow(k: nat, det: int)
    requires k <= 30 && IsStep(det)
    ensures Threshold(k, det) <= Threshold(30, det)
  {
    hide Q6, Threshold;
    ThresholdIsExact(k, det);
    ThresholdIsExact(30, det);
    ScaledOrder(Q6(k), Q6(k), Q6(30), det);
  }

  lemma OutermostCell(negative: bool, det: int)
    requires IsStep(det)
    ensures Threshold(29, det) <= OutermostLevel(negative, det) <= Threshold(30, det) + 1
  {
    hide Q6, Oq6, Threshold, InvQuantB, CodeOf;
    LevelInsideCell(30);
    DecodedLevel(negative, 30, det);
    ThresholdIsExact(29, det);
    ThresholdIsExact(30, det);
    ScaledOrder(Q6(29), Oq6(30), Q6(30), det);
    FloorOfNegation(Oq6(30) * 8 * det);
  }

  /** A difference that saturated 16-bit subtraction is out of reach. */
  lemma SaturationIsOutOfReach(x: int, y: int, det: int)
    requires IsStep(det) && Sub16(x, y) != x - y
    ensures !InReach(Sub16(x, y), det)
  {
    hide Threshold, OutermostLevel;
    ThresholdIsExact(29, det);
    ThresholdIsExact(30, det);
    OutermostCell(Sub16(x, y) < 0, det);
  }

  /** Everything short of overload is in reach. */
  lemma InReachUnlessOverload(el: int, det: int)
    requires IsInt16(el) && IsStep(det) && !Overload(el, det)
    ensures InReach(el, det)
  {
    hide Threshold, OutermostLevel;
    OutermostCell(el < 0, det);
  }

  /** Away from overload, therefore, the quantisation error is at most the width of the chosen cell. */
  lemma ReconstructionError(el: int, det: int)
    requires IsInt16(el) && IsStep(det) && !Overload(el, det)
    ensures var c := Cell(el, det);
            Abs(el - InvQuantB(QuantLow(el, det), det)) <= Threshold(c, det) - Threshold(c - 1, det)
  {
    hide Threshold, InvQuantB, QuantLow, InReach, Cell, Overload;
    InReachUnlessOverload(el, det);
    ErrorBoundExactly(el, det);
  }

  /** ... and a difference that saturated subtraction is an overload. */
  lemma SaturationIsOverload(x: int, y: int, det: int)
    requires IsStep(det) && !Overload(Sub16(x, y), det)
    ensures Sub16(x, y) == x - y
  {
    hide InReach, Overload;
    InReachUnlessOverload(Sub16(x, y), det);
    if Sub16(x, y) != x - y {
      SaturationIsOutOfReach(x, y, det);
    }
  }

  // ---- The coarse quantiser behind the predictor feedback ----

  /** The feedback does not see the two low bits of a code: four cells share one level, and the first two share zero. */
  function Coarse(c: nat): (g: nat)
    requires 1 <= c <= 30
    ensures g <= 7 && (if g == 0 then c <= 2 else 4 * g - 1 <= c <= 4 * g + 2)
  {
    (c + 1) / 4
  }

  /** The thresholds around such a group of cells. */
  function CoarseFrom(g: nat): (k: nat)
    requires g <= 7
  {
    if g == 0 then 0 else 4 * g - 2
  }

  function CoarseTo(g: nat): (k: nat)
    requires g <= 7
    ensures k <= 30
  {
    4 * g + 2
  }

  lemma CoarseCode(negative: bool, c: nat)
    requires 1 <= c <= 30
    ensures var ril := CodeOf(negative, c) / 4;
            Ril4(ril) == Coarse(c) && (Coarse(c) > 0 ==> Risil(ril) == if negative then -1 else 0)
  {
  }

  lemma CoarseLevelInside(g: nat)
    requires g <= 7
    ensures Q6(CoarseFrom(g)) <= Oq4(g) <= Q6(CoarseTo(g)) && Oq4(0) == 0
  {
  }

  /** What the predictors make of the code for a cell: the level of its group, scaled, with the sign. */
  lemma FeedbackLevel(negative: bool, c: nat, det: int)
    requires 1 <= c <= 30 && IsStep(det)
    ensures var x := Oq4(Coarse(c)) * 8 * det;
            InvQuantA(CodeOf(negative, c), det) == if negative then -x / 32768 else x / 32768
  {
    hide Oq4, CodeOf, Ril4, Risil, Coarse;
    CoarseCode(negative, c);
    assert Oq4(0) == 0 by { CoarseLevelInside(0); }
    var x := Oq4(Coarse(c)) * 8;
    ProductBounds(x, 20456, det, 16384);
    assert det * x == x * det && det * -x == -(x * det);
    FloorMonotone(x * det, 20456 * 16384);
    FloorMonotone(-20456 * 16384, -(x * det));
  }

  /** The feedback has the sign of the difference and lies in the group of cells that the encoder chose, up to one unit
      of floor rounding on the negative side; for the two smallest cells it is zero. */
  lemma FeedbackInCell(el: int, det: int)
    requires IsInt16(el) && IsStep(det)
    ensures var g, a := Coarse(Cell(el, det)), InvQuantA(QuantLow(el, det), det);
            var low, high := Threshold(CoarseFrom(g), det), Threshold(CoarseTo(g), det);
            if g == 0 then a == 0
            else if el >= 0 then low <= a <= high
            else low <= -a <= high + 1
  {
    hide Q6, Oq4, CodeOf, Threshold, InvQuantA, Coarse;
    var g := Coarse(Cell(el, det));
    FeedbackLevel(el < 0, Cell(el, det), det);
    CoarseLevelInside(g);
    ThresholdIsExact(CoarseFrom(g), det);
    ThresholdIsExact(CoarseTo(g), det);
    ScaledOrder(Q6(CoarseFrom(g)), Oq4(g), Q6(CoarseTo(g)), det);
    FloorOfNegation(Oq4(g) * 8 * det);
  }

  function CoarseWidth(el: int, det: int): (width: int)
    requires IsInt16(el)
  {
    var g := Coarse(Cell(el, det));
    Threshold(CoarseTo(g), det) - Threshold(CoarseFrom(g), det)
  }

  lemma ThresholdsOrdered(j: nat, k: nat, det: int)
    requires j <= k <= 30 && IsStep(det)
    ensures Threshold(j, det) <= Threshold(k, det)
  {
    hide Q6, Threshold;
    ThresholdIsExact(j, det);
    ThresholdIsExact(k, det);
    Q6Grows(j, k);
    ScaledOrder(Q6(j), Q6(k), Q6(k), det);
  }

  lemma {:induction false} Q6Grows(j: nat, k: nat)
    requires j <= k <= 30
    ensures Q6(j) <= Q6(k)
  {
    if j < k {
      Q6Grows(j, k - 1);
    }
  }

  /** Away from overload the feedback is off by at most the width of that group of cells. */
  lemma FeedbackError(el: int, det: int)
    requires IsInt16(el) && IsStep(det) && !Overload(el, det)
    ensures Abs(el - InvQuantA(QuantLow(el, det), det)) <= CoarseWidth(el, det)
  {
    hide Threshold, InvQuantA, Cell, Coarse, QuantLow;
    var c := Cell(el, det);
    var g := Coarse(c);
    FeedbackInCell(el, det);
    CellBounds(el, det);
    ThresholdIsExact(0, det);
    ThresholdsOrdered(CoarseFrom(g), c - 1, det);
    ThresholdsOrdered(c, CoarseTo(g), det);
  }

  // ---- Upper sub-band: four levels ----

  function UpperThreshold(det: int): (t: int) {
    Mult16(Shl3(564), det)
  }

  function QuantHigh(eh: int, det: int): (ih: nat)
    requires IsInt16(eh)
    ensures ih < 4
  {
    Misih(eh < 0, if Magnitude(eh) >= UpperThreshold(det) then 2 else 1)
  }

  function InvQuantAH(ih: nat, det: int): (dh: int)
    requires ih < 4
    ensures IsInt16(dh)
  {
    var wd1 := Shl3(Oq2(Ih2(ih)));
    Mult16(if Sih(ih) == 0 then wd1 else Neg16(wd1), det)
  }

  /** The decoder's tables undo the encoder's two-bit code. */
  lemma UpperCode(eh: int, det: int)
    requires IsInt16(eh)
    ensures var ih := QuantHigh(eh, det);
            && Oq2(Ih2(ih)) == (if Magnitude(eh) >= UpperThreshold(det) then 926 else 202)
            && Sih(ih) == (if eh < 0 then -1 else 0)
  {
  }

  lemma UpperLevels(eh: int, det: int)
    requires IsInt16(eh) && IsStep(det)
    ensures UpperThreshold(det) == 4512 * det / 32768
    ensures var level := if Magnitude(eh) >= UpperThreshold(det) then 7408 else 1616;
            InvQuantAH(QuantHigh(eh, det), det) == (if eh < 0 then -(level * det) else level * det) / 32768
  {
    hide QuantHigh, Oq2, Ih2, Sih;
    UpperCode(eh, det);
    FloorMonotone(7408 * det, 7408 * 16384);
    FloorMonotone(-7408 * 16384, -(7408 * det));
  }

  /** The upper sub-band reconstruction carries the sign of the difference and lies on the side of
      the single decision threshold that the encoder chose. */
  lemma UpperReconstruction(eh: int, det: int)
    requires IsInt16(eh) && IsStep(det)
    ensures var dh, t := InvQuantAH(QuantHigh(eh, det), det), UpperThreshold(det);
            && (eh >= 0 ==> 0 <= dh && (eh < t ==> dh <= t) && (eh >= t ==> dh >= t))
            && (eh < 0 ==> dh <= 0 && (Magnitude(eh) < t ==> -dh <= t + 1) && (Magnitude(eh) >= t ==> -dh >= t))
  {
    hide QuantHigh, InvQuantAH, Oq2, Ih2, Sih;
    UpperLevels(eh, det);
    FloorMonotone(1616 * det, 4512 * det);
    FloorMonotone(4512 * det, 7408 * det);
    FloorOfNegation(1616 * det);
    FloorOfNegation(7408 * det);
  }

  /** Magnitude of the outer level of the upper sub-band on one side. */
  function OuterLevel(negative: bool, det: int): (level: nat) {
    Abs(InvQuantAH(if negative then 0 else 2, det))
  }

  predicate UpperInReach(eh: int, det: int) {
    Abs(eh) <= OuterLevel(eh < 0, det) + UpperThreshold(det)
  }

  lemma OuterCode(eh: int, det: int)
    requires IsInt16(eh) && Magnitude(eh) >= UpperThreshold(det)
    ensures QuantHigh(eh, det) == if eh < 0 then 0 else 2
  {
  }

  /** The outer level lies beyond the threshold, and no further than the threshold is from zero. Every step the upper
      band can use is a multiple of four. */
  lemma OuterLevelNear(eh: int, det: int)
    requires IsInt16(eh) && IsStep(det) && det % 4 == 0 && Magnitude(eh) >= UpperThreshold(det)
    ensures var level: int := OuterLevel(eh < 0, det);
            && InvQuantAH(QuantHigh(eh, det), det) == (if eh < 0 then -level else level)
            && UpperThreshold(det) <= level <= 2 * UpperThreshold(det) + if eh < 0 then 1 else 0
  {
    hide QuantHigh, InvQuantAH, UpperThreshold;
    OuterCode(eh, det);
    UpperLevels(eh, det);
    FloorOfNegation(7408 * det);
  }

  /** The error of the upper quantiser stays within its threshold exactly as long as the difference reaches no further
      than the threshold beyond the outer level. */
  lemma UpperErrorExactly(eh: int, det: int)
    requires IsInt16(eh) && IsStep(det) && det % 4 == 0
    ensures Abs(eh - InvQuantAH(QuantHigh(eh, det), det)) <= UpperThreshold(det) <==> UpperInReach(eh, det)
  {
    hide QuantHigh, InvQuantAH, UpperThreshold, OuterLevel;
    UpperReconstruction(eh, det);
    UpperLevels(eh, det);
    if Magnitude(eh) >= UpperThreshold(det) {
      OuterLevelNear(eh, det);
    }
  }

  /** A saturated difference is out of reach here, too. */
  lemma UpperSaturation(x: int, y: int, det: int)
    requires IsStep(det) && det % 4 == 0 && Sub16(x, y) != x - y
    ensures !UpperInReach(Sub16(x, y), det)
  {
    hide InvQuantAH, UpperThreshold, OuterLevel;
    UpperLevels(Sub16(x, y), det);
    OuterLevelNear(Sub16(x, y), det);
  }

  // ---- Scale-factor adaptation ----

  function Clamp(v: int, hi: nat): (r: nat)
    ensures r <= hi
  {
    if v < 0 then 0 else if v > hi then hi else v
  }

  function LogScaleLow(il: nat, nb: int): (r: nat)
    requires il < 64
    ensures r <= 18432
  {
    Clamp(Add16(Mult16(nb, 32512), Wl(Ril4(il / 4))), 18432)
  }

  function LogScaleHigh(ih: nat, nb: int): (r: nat)
    requires ih < 4
    ensures r <= 22528
  {
    Clamp(Add16(Mult16(nb, 32512), Wh(Ih2(ih))), 22528)
  }

  /** The lower step size: never below 32, never above 16384, and the table index stays in range. */
  function ScaleLow(nb: nat): (det: int)
    requires nb <= 18432
    ensures 32 <= det <= 16384
  {
    Shl2(Add16(Ila((nb / 64) % 512 + 64), 1))
  }

  function ScaleHigh(nb: nat): (det: int)
    requires nb <= 22528
    ensures 8 <= det <= 16384
  {
    Shl2(Add16(Ila((nb / 64) % 512), 1))
  }

  /** The logarithm leaks by one part in 128 and moves by the code's table entry; no intermediate saturates. */
  lemma LogScaleLaw(il: nat, ih: nat, nb: int)
    requires il < 64 && ih < 4 && 0 <= nb <= 22528
    ensures LogScaleLow(il, nb) == Clamp(nb * 127 / 128 + Wl(Ril4(il / 4)), 18432)
    ensures LogScaleHigh(ih, nb) == Clamp(nb * 127 / 128 + Wh(Ih2(ih)), 22528)
  {
    hide Wl, Ril4, Wh, Ih2;
    assert nb * 32512 / 32768 == nb * 127 / 128;
  }

  lemma TableGrows(j: nat, k: nat)
    requires j <= k < 8
    ensures Wl(j) <= Wl(k) && (Wl(j) < 0 <==> j <= 1)
  {
  }

  /** The larger the difference, of either sign, the larger the next step; only the six smallest cells let it shrink. */
  lemma StepFollowsDifference(negative: bool, negative': bool, c: nat, c': nat, nb: int)
    requires 1 <= c <= c' <= 30 && 0 <= nb <= 18432
    ensures LogScaleLow(CodeOf(negative, c), nb) <= LogScaleLow(CodeOf(negative', c'), nb)
    ensures Wl(Ril4(CodeOf(negative, c) / 4)) < 0 <==> c <= 6
  {
    hide Wl, Ril4, CodeOf, LogScaleLow;
    CoarseCode(negative, c);
    CoarseCode(negative', c');
    LogScaleLaw(CodeOf(negative, c), 0, nb);
    LogScaleLaw(CodeOf(negative', c'), 0, nb);
    TableGrows(Coarse(c), Coarse(c'));
  }

  /** In the upper band the outer codes enlarge the step and the inner ones shrink it. */
  lemma UpperStepFollows(eh: int, det: int, nb: int)
    requires IsInt16(eh) && 0 <= nb <= 22528
    ensures LogScaleHigh(QuantHigh(eh, det), nb)
            == Clamp(nb * 127 / 128 + if Magnitude(eh) >= UpperThreshold(det) then 798 else -214, 22528)
  {
    hide UpperThreshold;
    LogScaleLaw(0, QuantHigh(eh, det), nb);
  }

  /** An octave of the logarithm, 2048 units, doubles the step, up to one unit of the table's rounding. */
  lemma StepDoubles(nb: nat)
    requires nb + 2048 <= 22528
    ensures var up := ScaleHigh(nb + 2048) - 2 * ScaleHigh(nb); up == 0 || up == 4
    ensures nb + 2048 <= 18432 ==> var up := ScaleLow(nb + 2048) - 2 * ScaleLow(nb); up == 0 || up == 4
  {
    hide Ila;
    assert (nb + 2048) / 64 == nb / 64 + 32;
    IlaDoubles(nb / 64);
    if nb + 2048 <= 18432 {
      IlaDoubles(nb / 64 + 64);
    }
  }

  /** A larger logarithm never means a smaller step. */
  lemma StepGrows(nb: nat, nb': nat)
    requires nb <= nb' <= 22528
    ensures ScaleHigh(nb) <= ScaleHigh(nb')
    ensures nb' <= 18432 ==> ScaleLow(nb) <= ScaleLow(nb')
  {
    hide Ila;
    IlaGrows(nb / 64, nb' / 64);
    if nb' <= 18432 {
      IlaGrows(nb / 64 + 64, nb' / 64 + 64);
    }
  }

  /** A code of one of the two smallest magnitudes that the adaptation distinguishes. */
  predicate IsSmallCode(il: nat)
    requires il < 64
  {
    Ril4(il / 4) <= 1
  }

  lemma SmallCodeShrinks(il: nat, nb: nat)
    requires il < 64 && IsSmallCode(il) && nb <= 18432
    ensures LogScaleLow(il, nb) <= if nb <= 30 then 0 else nb - 30
  {
    LogScaleLaw(il, 0, nb);
  }

  lemma SmallestSteps()
    ensures ScaleLow(0) == 32 && ScaleHigh(0) == 8
  {
    assert Ila(64) == 7 && Ila(0) == 1;
  }
}
