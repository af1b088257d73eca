/** One G.722 sub-band: the adaptive pole-zero predictor and the scale factor it runs with.
    The functions say what one update does; class Band does it in place. */
module G722Band {
  import opened FixedPoint
  import opened G722Tables
  import opened G722Quantizer

  datatype BandState = BandState(
    a: seq<int>,    // pole coefficients a[1], a[2]
    b: seq<int>,    // zero coefficients b[1] to b[6]
    d: seq<int>,    // quantised differences, newest first
    p: seq<int>,    // partially reconstructed signal, newest first
    r: seq<int>,    // reconstructed signal, newest first
    det: int,       // quantiser step
    nb: int,        // its logarithm
    s: int,         // predicted sample
    sp: int,        // pole part of the prediction
    sz: int)        // zero part of the prediction
  {
    predicate Shaped() {
      |a| == 3 && |b| == 7 && |d| == 7 && |p| == 3 && |r| == 3
    }
  }

  datatype Side = Low | High

  // ---- One predictor update, on values ----

  /** The new zero coefficients, from the differences and the old coefficients. */
  function UpZero(d: seq<int>, b: seq<int>): (b': seq<int>)
    requires |d| == 7 && |b| == 7
    ensures |b'| == 7
  {
    seq(7, i requires 0 <= i < 7 => if i == 0 then b[0] else ZeroUpdate(d[0], d[i], b[i]))
  }

  function ZeroUpdate(d0: int, di: int, bi: int): (r: int) {
    var wd1 := if d0 == 0 then 0 else 128;
    Add16(if (d0 < 0) == (di < 0) then wd1 else -wd1, Mult16(bi, 32640))
  }

  function UpPol2(a: seq<int>, p: seq<int>): (a2: int)
    requires |a| == 3 && |p| == 3
    ensures -12288 <= a2 <= 12288
  {
    var wd1 := Shl2(a[1]);
    var wd2 := (if (p[0] < 0) == (p[1] < 0) then Sub16(0, wd1) else wd1) / 128;
    var wd3 := if (p[0] < 0) == (p[2] < 0) then 128 else -128;
    var apl2 := Add16(Add16(wd2, wd3), Mult16(a[2], 32512));
    if apl2 > 12288 then 12288 else if apl2 < -12288 then -12288 else apl2
  }

  /** The first pole coefficient; a[2] has already been updated. */
  function UpPol1(a: seq<int>, p: seq<int>): (a1: int)
    requires |a| == 3 && |p| == 3
  {
    var wd1 := if (p[0] < 0) == (p[1] < 0) then 192 else -192;
    var apl1 := Add16(wd1, Mult16(a[1], 32640));
    var wd3 := Sub16(15360, a[2]);
    if apl1 > wd3 then wd3 else if apl1 < -wd3 then Neg16(wd3) else apl1
  }

  /** The zero section, summed from tap i down to tap 1 onto sz with saturation at every step. */
  function ZeroSectionFrom(i: nat, d: seq<int>, b: seq<int>, sz: int): (r: int)
    requires i <= 6 && |d| == 7 && |b| == 7
    ensures IsInt16(sz) ==> IsInt16(r)
  {
    if i == 0 then sz
    else ZeroSectionFrom(i - 1, d, b, Add16(sz, Mult16(Add16(d[i], d[i]), b[i])))
  }

  function PoleSection(a: seq<int>, r: seq<int>): (sp: int)
    requires |a| == 3 && |r| == 3
    ensures IsInt16(sp)
  {
    Add16(Mult16(a[1], Add16(r[1], r[1])), Mult16(a[2], Add16(r[2], r[2])))
  }

  /** A delay line moves on by one place; its newest entry stays. */
  function Aged(line: seq<int>): (r: seq<int>)
    requires |line| > 0
    ensures |r| == |line|
  {
    [line[0]] + line[..|line| - 1]
  }

  function Predict(st: BandState): (st': BandState)
    requires st.Shaped()
    ensures st'.Shaped()
  {
    var d, p, r := Aged(st.d), Aged(st.p), Aged(st.r);
    var b := UpZero(st.d, st.b);
    var a2 := st.a[2 := UpPol2(st.a, st.p)];
    var a := a2[1 := UpPol1(a2, st.p)];
    var sz := ZeroSectionFrom(6, d, b, 0);
    var sp := PoleSection(a, r);
    BandState(a, b, d, p, r, st.det, st.nb, Add16(sp, sz), sp, sz)
  }

  /** Take in one quantised difference together with the new scale factor, then predict. */
  function Feed(st: BandState, dlt: int, nb: int, det: int): (st': BandState)
    requires st.Shaped()
    ensures st'.Shaped()
  {
    Predict(st.(d := st.d[0 := dlt], nb := nb, det := det,
                p := st.p[0 := Add16(dlt, st.sz)], r := st.r[0 := Add16(st.s, dlt)]))
  }

  function LowStep(st: BandState, il: nat): (st': BandState)
    requires st.Shaped() && il < 64
    ensures st'.Shaped()
  {
    var nb := LogScaleLow(il, st.nb);
    Feed(st, InvQuantA(il, st.det), nb, ScaleLow(nb))
  }

  function HighStep(st: BandState, ih: nat): (st': BandState)
    requires st.Shaped() && ih < 4
    ensures st'.Shaped()
  {
    var nb := LogScaleHigh(ih, st.nb);
    Feed(st, InvQuantAH(ih, st.det), nb, ScaleHigh(nb))
  }

  function Zeros(n: nat): (s: seq<int>)
    ensures |s| == n
  {
    seq(n, _ => 0)
  }

  function ResetBand(det: int): (st: BandState)
    ensures st.Shaped()
  {
    BandState(Zeros(3), Zeros(7), Zeros(7), Zeros(3), Zeros(3), det, 0, 0, 0, 0)
  }

  // ---- The invariant ----

  predicate AllInt16(s: seq<int>) {
    forall i | 0 <= i < |s| :: IsInt16(s[i])
  }

  /** Every field fits 16 bits, the pole coefficients lie in the stability region, and the step
      size is the one that belongs to its logarithm. */
  predicate Adapted(st: BandState, side: Side)
    ensures Adapted(st, side) ==> st.Shaped() && IsStep(st.det) && IsInt16(st.s)
  {
    && st.Shaped()
    && AllInt16(st.a) && AllInt16(st.b) && AllInt16(st.d) && AllInt16(st.p) && AllInt16(st.r)
    && IsInt16(st.s) && IsInt16(st.sp) && IsInt16(st.sz)
    && -12288 <= st.a[2] <= 12288
    && Abs(st.a[1]) <= 15360 - st.a[2]
    && match side
       case Low => 0 <= st.nb <= 18432 && st.det == ScaleLow(st.nb)
       case High => 0 <= st.nb <= 22528 && st.det == ScaleHigh(st.nb)
  }

  lemma ResetIsAdapted()
    ensures Adapted(ResetBand(32), Low) && Adapted(ResetBand(8), High)
  {
    hide Ila;
    SmallestSteps();
  }

  lemma AgedInt16(line: seq<int>)
    requires |line| > 0 && AllInt16(line)
    ensures AllInt16(Aged(line))
  {
  }

  /** The clamp on the first pole coefficient is always against a representable bound. */
  lemma PolesStayInside(a: seq<int>, p: seq<int>)
    requires |a| == 3 && |p| == 3 && -12288 <= a[2] <= 12288
    ensures Abs(UpPol1(a, p)) <= 15360 - a[2]
  {
  }

  /** The sign the adaptation uses; zero counts as positive. */
  function Sign(v: int): (r: int) {
    if v < 0 then -1 else 1
  }

  /** The sign-correlation law of the zero section: a leak of one part in 256 and a step of 128 along the product
      of the signs, none at all when the new difference is zero. No update ever saturates. */
  lemma ZeroUpdateIsExact(d0: int, di: int, bi: int)
    requires IsInt16(bi)
    ensures ZeroUpdate(d0, di, bi) == bi * 255 / 256 + if d0 == 0 then 0 else 128 * (Sign(d0) * Sign(di))
  {
    assert bi * 32640 / 32768 == bi * 255 / 256;
  }

  function Within(v: int, bound: int): (r: int)
    requires bound >= 0
    ensures -bound <= r <= bound
  {
    if v > bound then bound else if v < -bound then -bound else v
  }

  /** The law of the first pole coefficient: a leak of one part in 256 and a step of 192 along the product of
      adjacent signs, limited by what the second coefficient leaves. */
  lemma FirstPoleUpdateExact(a: seq<int>, p: seq<int>)
    requires |a| == 3 && |p| == 3 && IsInt16(a[1]) && -12288 <= a[2] <= 12288
    ensures UpPol1(a, p) == Within(a[1] * 255 / 256 + 192 * (Sign(p[0]) * Sign(p[1])), 15360 - a[2])
  {
    assert a[1] * 32640 / 32768 == a[1] * 255 / 256;
  }

  /** The law of the second: a leak of one part in 128, a step of 128 along the product of the signs two samples
      apart, and a term that opposes the first coefficient. Only that term can saturate before the final limit. */
  lemma SecondPoleUpdateExact(a: seq<int>, p: seq<int>)
    requires |a| == 3 && |p| == 3 && IsInt16(a[1]) && -12288 <= a[2] <= 12288
    ensures var s1, s2 := Sign(p[0]) * Sign(p[1]), Sign(p[0]) * Sign(p[2]);
            UpPol2(a, p) == Within(Sat16(-4 * (s1 * a[1])) / 128 + 128 * s2 + a[2] * 127 / 128, 12288)
  {
    hide Mult16;
    SecondLeak(a[2]);
    SecondTerm(a[1], Sign(p[0]) * Sign(p[1]));
  }

  lemma SecondLeak(a2: int)
    requires -12288 <= a2 <= 12288
    ensures Mult16(a2, 32512) == a2 * 127 / 128 && -12192 <= Mult16(a2, 32512) <= 12192
  {
  }

  lemma SecondTerm(a1: int, s: int)
    requires IsInt16(a1) && (s == 1 || s == -1)
    ensures (if s == 1 then Sub16(0, Shl2(a1)) else Shl2(a1)) / 128 == Sat16(-4 * (s * a1)) / 128
  {
  }

  lemma PredictKeepsInt16(st: BandState)
    requires st.Shaped()
    requires AllInt16(st.a) && AllInt16(st.b) && AllInt16(st.d) && AllInt16(st.p) && AllInt16(st.r)
    ensures var st' := Predict(st);
            && AllInt16(st'.a) && AllInt16(st'.b) && AllInt16(st'.d) && AllInt16(st'.p) && AllInt16(st'.r)
            && IsInt16(st'.s) && IsInt16(st'.sp) && IsInt16(st'.sz)
            && -12288 <= st'.a[2] <= 12288 && Abs(st'.a[1]) <= 15360 - st'.a[2]
            && st'.nb == st.nb && st'.det == st.det
  {
    hide UpPol1, UpPol2, ZeroUpdate, ZeroSectionFrom, PoleSection, Aged;
    AgedInt16(st.d);
    AgedInt16(st.p);
    AgedInt16(st.r);
    var a2 := st.a[2 := UpPol2(st.a, st.p)];
    PolesStayInside(a2, st.p);
    forall i | 1 <= i < 7 ensures IsInt16(UpZero(st.d, st.b)[i]) {
      assert IsInt16(ZeroUpdate(st.d[0], st.d[i], st.b[i])) by { ZeroUpdateInt16(st.d[0], st.d[i], st.b[i]); }
    }
  }

  lemma ZeroUpdateInt16(d0: int, di: int, bi: int)
    ensures IsInt16(ZeroUpdate(d0, di, bi))
  {
  }

  /** The invariant survives every octet, reserved codes included. */
  lemma StepsKeepAdapted(lo: BandState, hi: BandState, il: nat, ih: nat)
    requires Adapted(lo, Low) && Adapted(hi, High) && il < 64 && ih < 4
    ensures Adapted(LowStep(lo, il), Low)
    ensures Adapted(HighStep(hi, ih), High)
  {
    hide Predict, InvQuantA, InvQuantAH, LogScaleLow, LogScaleHigh, ScaleLow, ScaleHigh;
    var dl, dh := InvQuantA(il, lo.det), InvQuantAH(ih, hi.det);
    PredictKeepsInt16(lo.(d := lo.d[0 := dl], nb := LogScaleLow(il, lo.nb), det := ScaleLow(LogScaleLow(il, lo.nb)),
                          p := lo.p[0 := Add16(dl, lo.sz)], r := lo.r[0 := Add16(lo.s, dl)]));
    PredictKeepsInt16(hi.(d := hi.d[0 := dh], nb := LogScaleHigh(ih, hi.nb), det := ScaleHigh(LogScaleHigh(ih, hi.nb)),
                          p := hi.p[0 := Add16(dh, hi.sz)], r := hi.r[0 := Add16(hi.s, dh)]));
  }

  // ---- What the stability region is for ----

  lemma ProductNonNegative(u: real, v: real)
    requires u >= 0.0 && v >= 0.0
    ensures u * v >= 0.0
  {
  }

  lemma RealPole(alpha: real, beta: real, x: real)
    requires -0.75 <= beta <= 0.75 && -(0.9375 - beta) <= alpha <= 0.9375 - beta
    requires x * x == alpha * x + beta
    ensures x * x < 1.0
  {
    var t := if x < 0.0 then -x else x;
    var alphaT := if x < 0.0 then -alpha else alpha;
    assert t * t == alphaT * t + beta && x * x == t * t;
    if t >= 1.0 {
      ProductNonNegative(0.9375 - beta - alphaT, t);
      ProductNonNegative(beta + 0.75, t - 1.0);
      ProductNonNegative(t - 1.0, t - 0.6875);
      Expand(alphaT, beta, t);
    }
    assert t < 1.0;
    assert t * t <= t;
  }

  /** The three products above, multiplied out. */
  lemma Expand(alphaT: real, beta: real, t: real)
    ensures (0.9375 - beta - alphaT) * t + (beta + 0.75) * (t - 1.0) + (t - 1.0) * (t - 0.6875)
            == t * t - alphaT * t - beta - 0.0625
  {
  }

  lemma ComplexPole(alpha: real, beta: real, x: real, y: real)
    requires -0.75 <= beta <= 0.75 && -(0.9375 - beta) <= alpha <= 0.9375 - beta
    requires x * x - y * y == alpha * x + beta && 2.0 * x * y == alpha * y
    ensures x * x + y * y < 1.0
  {
    if y == 0.0 {
      RealPole(alpha, beta, x);
    } else {
      assert (2.0 * x - alpha) * y == 0.0;
      assert alpha == 2.0 * x;
      assert x * x + y * y == -beta;
    }
  }

  /** The invariant keeps every pole x + iy of the predictor, a root of z^2 = (a1/2^14) z + a2/2^14,
      strictly inside the unit circle. */
  lemma PolesInsideUnitCircle(st: BandState, side: Side, x: real, y: real)
    requires Adapted(st, side)
    requires x * x - y * y == (st.a[1] as real / 16384.0) * x + st.a[2] as real / 16384.0
    requires 2.0 * x * y == (st.a[1] as real / 16384.0) * y
    ensures x * x + y * y < 1.0
  {
    hide ScaleLow, ScaleHigh;
    var alpha, beta := st.a[1] as real / 16384.0, st.a[2] as real / 16384.0;
    assert -0.75 <= beta <= 0.75 && -(0.9375 - beta) <= alpha <= 0.9375 - beta;
    ComplexPole(alpha, beta, x, y);
  }

  // ---- The same update, in place ----

  class Band {
    const a: array<int>
    const b: array<int>
    const d: array<int>
    const p: array<int>
    const r: array<int>
    var det: int
    var nb: int
    var s: int
    var sp: int
    var sz: int

    ghost const Repr: set<object>

    ghost predicate Valid()
      reads this
    {
      && a.Length == 3 && b.Length == 7 && d.Length == 7 && p.Length == 3 && r.Length == 3
      && a != p && a != r && p != r && b != d
      && Repr == {this, a, b, d, p, r}
    }

    ghost function State(): (st: BandState)
      requires Valid()
      reads this, a, b, d, p, r
      ensures st.Shaped()
    {
      BandState(a[..], b[..], d[..], p[..], r[..], det, nb, s, sp, sz)
    }

    constructor (step: int)
      ensures Valid() && fresh(Repr)
      ensures State() == ResetBand(step)
    {
      var a0, b0, d0 := new int[3](_ => 0), new int[7](_ => 0), new int[7](_ => 0);
      var p0, r0 := new int[3](_ => 0), new int[3](_ => 0);
      a, b, d, p, r := a0, b0, d0, p0, r0;
      det, nb, s, sp, sz := step, 0, 0, 0, 0;
      Repr := {this, a0, b0, d0, p0, r0};
    }

    method UpZeroInPlace()
      requires Valid()
      modifies b, d
      ensures b[..] == UpZero(old(d[..]), old(b[..]))
      ensures d[..] == Aged(old(d[..]))
    {
      hide Add16, Mult16;
      var wd1 := if d[0] == 0 then 0 else 128;
      var sg0 := if d[0] < 0 then -1 else 0;
      for i := 7 downto 1
        invariant d[0] == old(d[0]) && b[0] == old(b[0])
        invariant forall k | 1 <= k < i :: d[k] == old(d[k]) && b[k] == old(b[k])
        invariant forall k | i <= k < 7 :: d[k] == old(d[k - 1]) && b[k] == ZeroUpdate(old(d[0]), old(d[k]), old(b[k]))
      {
        var sgi := if d[i] < 0 then -1 else 0;
        var wd2 := if sg0 == sgi then wd1 else -wd1;
        b[i] := Add16(wd2, Mult16(b[i], 32640));
        d[i] := d[i - 1];
      }
    }

    method UpPol2InPlace()
      requires Valid()
      modifies a
      ensures a[..] == old(a[..])[2 := UpPol2(old(a[..]), p[..])]
    {
      var sg0 := if p[0] < 0 then -1 else 0;
      var sg1 := if p[1] < 0 then -1 else 0;
      var sg2 := if p[2] < 0 then -1 else 0;
      var wd1 := Shl2(a[1]);
      var wd2 := if sg0 == sg1 then Sub16(0, wd1) else wd1;
      wd2 := wd2 / 128;
      var wd3 := if sg0 == sg2 then 128 else -128;
      var apl2 := Add16(Add16(wd2, wd3), Mult16(a[2], 32512));
      if apl2 > 12288 { apl2 := 12288; }
      if apl2 < -12288 { apl2 := -12288; }
      a[2] := apl2;
    }

    method UpPol1InPlace()
      requires Valid()
      modifies a, p
      ensures a[..] == old(a[..])[1 := UpPol1(old(a[..]), old(p[..]))]
      ensures p[..] == Aged(old(p[..]))
    {
      var sg0 := if p[0] < 0 then -1 else 0;
      var sg1 := if p[1] < 0 then -1 else 0;
      var wd1 := if sg0 == sg1 then 192 else -192;
      var apl1 := Add16(wd1, Mult16(a[1], 32640));
      var wd3 := Sub16(15360, a[2]);
      if apl1 > wd3 {
        apl1 := wd3;
      } else if apl1 < -wd3 {
        apl1 := Neg16(wd3);
      }
      p[2] := p[1];
      p[1] := p[0];
      a[1] := apl1;
    }

    method FilterZeros() returns (sum: int)
      requires Valid()
      ensures sum == ZeroSectionFrom(6, d[..], b[..], 0)
    {
      hide Add16, Mult16, Sat16;
      sum := 0;
      for i := 7 downto 1
        invariant ZeroSectionFrom(6, d[..], b[..], 0) == ZeroSectionFrom(i - 1, d[..], b[..], sum)
      {
        sum := Add16(sum, Mult16(Add16(d[i], d[i]), b[i]));
      }
    }

    method FilterPoles() returns (sum: int)
      requires Valid()
      modifies r
      ensures r[..] == Aged(old(r[..]))
      ensures sum == PoleSection(a[..], r[..])
    {
      hide Add16, Mult16, Sat16;
      r[2] := r[1];
      r[1] := r[0];
      sum := Add16(Mult16(a[1], Add16(r[1], r[1])), Mult16(a[2], Add16(r[2], r[2])));
    }

    method PredictInPlace()
      requires Valid()
      modifies this`s, this`sp, this`sz, a, b, d, p, r
      ensures Valid()
      ensures State() == Predict(old(State()))
    {
      hide UpZero, UpPol2, UpPol1, ZeroSectionFrom, PoleSection, Aged, Add16;
      UpZeroInPlace();
      UpPol2InPlace();
      UpPol1InPlace();
      sz := FilterZeros();
      sp := FilterPoles();
      s := Add16(sp, sz);
    }

    /** The part of one octet's work that encoder and decoder share: a code, from a quantiser or
        from the line, moves the lower band on. */
    method FeedLow(il: nat)
      requires Valid() && il < 64
      modifies Repr
      ensures Valid()
      ensures State() == LowStep(old(State()), il)
    {
      hide Predict, InvQuantA, LogScaleLow, ScaleLow, Add16;
      d[0] := InvQuantA(il, det);
      nb := LogScaleLow(il, nb);
      det := ScaleLow(nb);
      p[0] := Add16(d[0], sz);
      r[0] := Add16(s, d[0]);
      PredictInPlace();
    }

    method FeedHigh(ih: nat)
      requires Valid() && ih < 4
      modifies Repr
      ensures Valid()
      ensures State() == HighStep(old(State()), ih)
    {
      hide Predict, InvQuantAH, LogScaleHigh, ScaleHigh, Add16;
      d[0] := InvQuantAH(ih, det);
      nb := LogScaleHigh(ih, nb);
      det := ScaleHigh(nb);
      p[0] := Add16(d[0], sz);
      r[0] := Add16(s, d[0]);
      PredictInPlace();
    }
  }
}
