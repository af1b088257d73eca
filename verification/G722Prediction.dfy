/** What a G.722 band predicts: an adaptive filter over the differences and samples it has reconstructed. */
module G722Prediction {
  import opened FixedPoint
  import opened G722Tables
  import opened G722Quantizer
  import opened G722Band
  import opened G722Codec
  import opened G722Synthesis

  // ---- The two filter sections, without saturation ----

  /** One tap: a coefficient in units of 1/16384 on a 16-bit value. */
  function Weighted(v: int, coefficient: int): (w: int) {
    2 * v * coefficient / 32768
  }

  /** The taps from tap i + 1 up to tap 6, in the order in which the code adds them. */
  function ZeroTapsAbove(i: nat, d: seq<int>, b: seq<int>): (sum: int)
    requires i <= 6 && |d| == 7 && |b| == 7
    decreases 6 - i
  {
    if i == 6 then 0 else ZeroTapsAbove(i + 1, d, b) + Weighted(d[i + 1], b[i + 1])
  }

  /** No operand, tap or partial sum of the zero section leaves 16 bits. */
  predicate ZerosFit(d: seq<int>, b: seq<int>)
    requires |d| == 7 && |b| == 7
  {
    forall i | 1 <= i <= 6 ::
      IsInt16(2 * d[i]) && IsInt16(Weighted(d[i], b[i])) && IsInt16(ZeroTapsAbove(i - 1, d, b))
  }

  function PoleTaps(a: seq<int>, r: seq<int>): (sum: int)
    requires |a| == 3 && |r| == 3
  {
    Weighted(r[1], a[1]) + Weighted(r[2], a[2])
  }

  predicate PolesFit(a: seq<int>, r: seq<int>)
    requires |a| == 3 && |r| == 3
  {
    && (forall i | 1 <= i <= 2 :: IsInt16(2 * r[i]) && IsInt16(Weighted(r[i], a[i])))
    && IsInt16(PoleTaps(a, r))
  }

  lemma {:induction false} ZeroSectionIsSum(i: nat, d: seq<int>, b: seq<int>)
    requires i <= 6 && |d| == 7 && |b| == 7 && ZerosFit(d, b)
    ensures ZeroSectionFrom(i, d, b, ZeroTapsAbove(i, d, b)) == ZeroTapsAbove(0, d, b)
  {
    hide Mult16;
    if i > 0 {
      TapFits(d[i], b[i]);
      ZeroSectionIsSum(i - 1, d, b);
    }
  }

  lemma TapFits(v: int, coefficient: int)
    requires IsInt16(2 * v) && IsInt16(Weighted(v, coefficient))
    ensures Add16(v, v) == 2 * v && Mult16(Add16(v, v), coefficient) == Weighted(v, coefficient)
    ensures Mult16(coefficient, Add16(v, v)) == Weighted(v, coefficient)
  {
    assert coefficient * (2 * v) == 2 * v * coefficient;
  }

  lemma PoleSectionIsSum(a: seq<int>, r: seq<int>)
    requires |a| == 3 && |r| == 3 && PolesFit(a, r)
    ensures PoleSection(a, r) == PoleTaps(a, r)
  {
    hide Mult16, Weighted;
    TapFits(r[1], a[1]);
    TapFits(r[2], a[2]);
  }

  // ---- One update ----

  /** The difference, the partial and the whole reconstruction enter their delay lines. */
  lemma LinesMoveOn(st: BandState, dlt: int, nb: int, det: int)
    requires st.Shaped()
    ensures var st' := Feed(st, dlt, nb, det);
            && st'.det == det && st'.nb == nb
            && st'.d[1] == dlt && (forall i | 2 <= i <= 6 :: st'.d[i] == st.d[i - 1])
            && st'.r[1] == Add16(st.s, dlt) && st'.r[2] == st.r[1]
            && st'.p[1] == Add16(dlt, st.sz) && st'.p[2] == st.p[1]
  {
    hide ZeroUpdate, UpPol1, UpPol2, ZeroSectionFrom, PoleSection, Add16;
  }

  /** The zero coefficients follow the sign of the new difference against the six before it ... */
  lemma ZerosFollow(st: BandState, dlt: int, nb: int, det: int, i: nat)
    requires st.Shaped() && AllInt16(st.b) && 1 <= i <= 6
    ensures Feed(st, dlt, nb, det).b[i]
            == st.b[i] * 255 / 256 + if dlt == 0 then 0 else 128 * (Sign(dlt) * Sign(st.d[i]))
  {
    hide ZeroUpdate, UpPol1, UpPol2, ZeroSectionFrom, PoleSection, Add16;
    ZeroUpdateIsExact(dlt, st.d[i], st.b[i]);
  }

  /** The second pole coefficient from the old ones and the signs of the last three partial reconstructions. */
  function SecondPole(a1: int, a2: int, s1: int, s2: int): (a2': int)
    ensures -12288 <= a2' <= 12288
  {
    Within(Sat16(-4 * (s1 * a1)) / 128 + 128 * s2 + a2 * 127 / 128, 12288)
  }

  function FirstPole(a1: int, a2': int, s1: int): (a1': int)
    requires -12288 <= a2' <= 12288
  {
    Within(a1 * 255 / 256 + 192 * s1, 15360 - a2')
  }

  /** ... and the pole coefficients that of the new partial reconstruction against the two before it. */
  lemma PolesFollow(st: BandState, dlt: int, nb: int, det: int)
    requires st.Shaped() && AllInt16(st.a) && -12288 <= st.a[2] <= 12288
    ensures var a, sign := Feed(st, dlt, nb, det).a, Sign(Add16(dlt, st.sz));
            var a2 := SecondPole(st.a[1], st.a[2], sign * Sign(st.p[1]), sign * Sign(st.p[2]));
            a[2] == a2 && a[1] == FirstPole(st.a[1], a2, sign * Sign(st.p[1]))
  {
    hide ZeroUpdate, UpPol1, UpPol2, ZeroSectionFrom, PoleSection, Add16, Within, Sat16;
    var p := st.p[0 := Add16(dlt, st.sz)];
    SecondPoleUpdateExact(st.a, p);
    FirstPoleUpdateExact(st.a[2 := UpPol2(st.a, p)], p);
  }

  /** The prediction is the filter with the new coefficients over the new lines. */
  lemma PredictsBySum(st: BandState, dlt: int, nb: int, det: int)
    requires st.Shaped()
    ensures var st' := Feed(st, dlt, nb, det);
            && (ZerosFit(st'.d, st'.b) ==> st'.sz == ZeroTapsAbove(0, st'.d, st'.b))
            && (PolesFit(st'.a, st'.r) ==> st'.sp == PoleTaps(st'.a, st'.r))
            && st'.s == Add16(st'.sp, st'.sz)
  {
    hide ZeroUpdate, UpPol1, UpPol2, ZeroSectionFrom, PoleSection, Add16, ZerosFit, PolesFit;
    var st' := Feed(st, dlt, nb, det);
    if ZerosFit(st'.d, st'.b) {
      ZeroSectionIsSum(6, st'.d, st'.b);
    }
    if PolesFit(st'.a, st'.r) {
      PoleSectionIsSum(st'.a, st'.r);
    }
  }

  // ---- Over whole runs ----

  function BandOf(st: CodecState, side: Side): (band: BandState) {
    match side
    case Low => st.lo
    case High => st.hi
  }

  /** The difference that a band reconstructs from its part of an octet. */
  function Difference(band: BandState, side: Side, octet: int): (dlt: int)
    requires IsOctet(octet)
  {
    match side
    case Low => InvQuantA(octet % 64, band.det)
    case High => InvQuantAH(octet / 64, band.det)
  }

  /** An octet feeds its difference to the band. */
  lemma OctetFeeds(st: CodecState, side: Side, octet: int) returns (nb: int, det: int)
    requires Ready(st) && IsOctet(octet)
    ensures BandOf(st, side).Shaped()
    ensures BandOf(DecodeOctet(st, octet).0, side)
            == Feed(BandOf(st, side), Difference(BandOf(st, side), side, octet), nb, det)
  {
    hide Feed, Reconstructed, ReconstructedHigh, InvQuantA, InvQuantAH, LogScaleLow, LogScaleHigh, ScaleLow, ScaleHigh;
    match side
    case Low =>
      nb := LogScaleLow(octet % 64, st.lo.nb);
      det := ScaleLow(LogScaleLow(octet % 64, st.lo.nb));
    case High =>
      nb := LogScaleHigh(octet / 64, st.hi.nb);
      det := ScaleHigh(LogScaleHigh(octet / 64, st.hi.nb));
  }

  /** The differences and the samples that a band has reconstructed from each octet, and the samples less the poles'
      share. */
  function History(d: CodecState, octets: seq<int>, side: Side): (x: seq<int>)
    requires Ready(d) && Octets(octets)
    ensures |x| == |octets|
  {
    seq(|octets|, k requires 0 <= k < |octets| => Difference(BandOf(StateAt(d, octets, k), side), side, octets[k]))
  }

  function Samples(d: CodecState, octets: seq<int>, side: Side): (x: seq<int>)
    requires Ready(d) && Octets(octets)
    ensures |x| == |octets|
  {
    seq(|octets|, k requires 0 <= k < |octets| =>
      Add16(BandOf(StateAt(d, octets, k), side).s, History(d, octets, side)[k]))
  }

  function Partials(d: CodecState, octets: seq<int>, side: Side): (x: seq<int>)
    requires Ready(d) && Octets(octets)
    ensures |x| == |octets|
  {
    seq(|octets|, k requires 0 <= k < |octets| =>
      Add16(History(d, octets, side)[k], BandOf(StateAt(d, octets, k), side).sz))
  }

  /** The delay lines hold the newest of three signals in front of time t, newest first. */
  predicate Remembers(band: BandState, differences: seq<int>, samples: seq<int>, partials: seq<int>, t: int) {
    && band.Shaped()
    && (forall i | 1 <= i <= 6 :: band.d[i] == Past(differences, t - i))
    && (forall i | 1 <= i <= 2 :: band.r[i] == Past(samples, t - i))
    && (forall i | 1 <= i <= 2 :: band.p[i] == Past(partials, t - i))
  }

  lemma RemembersOneMore(band: BandState, x: seq<int>, y: seq<int>, z: seq<int>, t: nat, dlt: int, nb: int, det: int)
    requires Remembers(band, x, y, z, t) && t < |x| == |y| == |z|
    requires x[t] == dlt && y[t] == Add16(band.s, dlt) && z[t] == Add16(dlt, band.sz)
    ensures Remembers(Feed(band, dlt, nb, det), x, y, z, t + 1)
  {
    hide Feed, Add16, Past;
    LinesMoveOn(band, dlt, nb, det);
    var band' := Feed(band, dlt, nb, det);
    assert Past(x, t) == x[t] && Past(y, t) == y[t] && Past(z, t) == z[t] by { Now(x, t); Now(y, t); Now(z, t); }
    forall i | 1 <= i <= 6 ensures band'.d[i] == Past(x, t + 1 - i) {
      if i > 1 {
        assert band'.d[i] == band.d[i - 1] == Past(x, t - (i - 1));
      }
    }
    assert band'.r[2] == band.r[1] == Past(y, t - 1);
    assert band'.p[2] == band.p[1] == Past(z, t - 1);
  }

  lemma Now(x: seq<int>, t: nat)
    requires t < |x|
    ensures Past(x, t) == x[t]
  {
  }

  predicate Fresh(band: BandState) {
    band.d == Zeros(7) && band.r == Zeros(3) && band.p == Zeros(3) && band.Shaped()
  }

  /** From fresh delay lines on they always hold the newest differences and samples of the whole run. */
  lemma {:induction false} LinesRemember(d: CodecState, octets: seq<int>, side: Side, k: nat)
    requires Ready(d) && Fresh(BandOf(d, side)) && Octets(octets) && k <= |octets|
    ensures Remembers(BandOf(StateAt(d, octets, k), side), History(d, octets, side), Samples(d, octets, side),
                      Partials(d, octets, side), k)
  {
    hide Ready, StateAt, DecodeOctet, Remembers, Difference, BandOf, Feed, Add16;
    if k == 0 {
      NothingYet(d, octets, side);
    } else {
      LinesRemember(d, octets, side, k - 1);
      NextState(d, octets, k - 1);
      var st := StateAt(d, octets, k - 1);
      var nb, det := OctetFeeds(st, side, octets[k - 1]);
      RemembersOneMore(BandOf(st, side), History(d, octets, side), Samples(d, octets, side), Partials(d, octets, side),
                       k - 1, Difference(BandOf(st, side), side, octets[k - 1]), nb, det);
    }
  }

  lemma NothingYet(d: CodecState, octets: seq<int>, side: Side)
    requires Ready(d) && Fresh(BandOf(d, side)) && Octets(octets)
    ensures StateAt(d, octets, 0) == d
    ensures Remembers(BandOf(d, side), History(d, octets, side), Samples(d, octets, side), Partials(d, octets, side), 0)
  {
    hide Ready, StateAt, Difference, Add16, History, Samples, Partials;
    assert StateAt(d, octets, 0) == d by { StartState(d, octets); }
  }

  lemma StartState(d: CodecState, octets: seq<int>)
    requires Ready(d) && Octets(octets)
    ensures StateAt(d, octets, 0) == d
  {
    hide Ready;
  }

  /** Nothing saturates in the prediction of a band. */
  predicate Unsaturated(band: BandState)
    requires band.Shaped()
  {
    && ZerosFit(band.d, band.b) && PolesFit(band.a, band.r)
    && IsInt16(PoleTaps(band.a, band.r) + ZeroTapsAbove(0, band.d, band.b))
  }

  lemma SixTaps(d: seq<int>, b: seq<int>)
    requires |d| == 7 && |b| == 7
    ensures ZeroTapsAbove(0, d, b)
            == Weighted(d[1], b[1]) + Weighted(d[2], b[2]) + Weighted(d[3], b[3])
               + Weighted(d[4], b[4]) + Weighted(d[5], b[5]) + Weighted(d[6], b[6])
  {
    hide Weighted;
    assert ZeroTapsAbove(3, d, b) == Weighted(d[6], b[6]) + Weighted(d[5], b[5]) + Weighted(d[4], b[4]);
  }

  /** Whatever was decoded before, and so in an encoder in step, too: unless something saturates, both bands predict the
      six-tap sum over the newest differences plus the two-tap sum over the newest reconstructed samples. */
  lemma PredictionIsFilter(d: CodecState, octets: seq<int>, side: Side, k: nat)
    requires Ready(d) && Fresh(BandOf(d, side)) && Octets(octets) && 0 < k <= |octets|
    ensures BandOf(StateAt(d, octets, k), side).Shaped()
    ensures var band, x, y := BandOf(StateAt(d, octets, k), side), History(d, octets, side), Samples(d, octets, side);
            Unsaturated(band) ==>
              band.s == Weighted(Past(x, k - 1), band.b[1]) + Weighted(Past(x, k - 2), band.b[2])
                        + Weighted(Past(x, k - 3), band.b[3]) + Weighted(Past(x, k - 4), band.b[4])
                        + Weighted(Past(x, k - 5), band.b[5]) + Weighted(Past(x, k - 6), band.b[6])
                        + Weighted(Past(y, k - 1), band.a[1]) + Weighted(Past(y, k - 2), band.a[2])
  {
    hide Ready, StateAt, DecodeOctet, Difference, BandOf, Feed, Weighted, Past, History, Samples, Partials, Fresh;
    LinesRemember(d, octets, side, k);
    NextState(d, octets, k - 1);
    var before := StateAt(d, octets, k - 1);
    var nb, det := OctetFeeds(before, side, octets[k - 1]);
    PredictsBySum(BandOf(before, side), Difference(BandOf(before, side), side, octets[k - 1]), nb, det);
    var band := BandOf(StateAt(d, octets, k), side);
    SixTaps(band.d, band.b);
  }

  // ---- When nothing can saturate ----

  function Loudness(n: nat, d: seq<int>): (sum: nat)
    requires n < |d|
  {
    if n == 0 then 0 else Loudness(n - 1, d) + Abs(d[n])
  }

  /** A tap is at most twice its operand. */
  lemma TapBound(v: int, coefficient: int)
    requires IsInt16(coefficient)
    ensures Abs(Weighted(v, coefficient)) <= 2 * Abs(v)
  {
    if v >= 0 {
      Scaled(2 * v, coefficient);
    } else {
      Scaled(-2 * v, coefficient);
      assert 2 * v * coefficient == -(-2 * v * coefficient);
    }
  }

  lemma {:induction false} Scaled(a: nat, c: int)
    requires IsInt16(c)
    ensures -32768 * a <= a * c <= 32767 * a
  {
    if a > 0 {
      Scaled(a - 1, c);
      assert a * c == (a - 1) * c + c;
    }
  }

  lemma {:induction false} LoudnessGrows(i: nat, n: nat, d: seq<int>)
    requires i <= n < |d|
    ensures Loudness(i, d) <= Loudness(n, d)
  {
    if i < n {
      LoudnessGrows(i, n - 1, d);
    }
  }

  lemma {:induction false} TapsBound(i: nat, d: seq<int>, b: seq<int>)
    requires i <= 6 && |d| == 7 && |b| == 7 && AllInt16(b)
    ensures Abs(ZeroTapsAbove(i, d, b)) <= 2 * (Loudness(6, d) - Loudness(i, d))
    decreases 6 - i
  {
    hide Weighted;
    if i < 6 {
      TapsBound(i + 1, d, b);
      TapBound(d[i + 1], b[i + 1]);
    }
  }

  lemma QuietZero(d: seq<int>, b: seq<int>, i: nat)
    requires |d| == 7 && |b| == 7 && AllInt16(b) && Loudness(6, d) < 16384 && 1 <= i <= 6
    ensures IsInt16(2 * d[i]) && IsInt16(Weighted(d[i], b[i])) && IsInt16(ZeroTapsAbove(i - 1, d, b))
  {
    hide Weighted, ZeroTapsAbove;
    assert Loudness(i, d) == Loudness(i - 1, d) + Abs(d[i]);
    LoudnessGrows(i, 6, d);
    TapBound(d[i], b[i]);
    TapsBound(i - 1, d, b);
  }

  lemma QuietZeros(d: seq<int>, b: seq<int>)
    requires |d| == 7 && |b| == 7 && AllInt16(b) && Loudness(6, d) < 16384
    ensures ZerosFit(d, b) && Abs(ZeroTapsAbove(0, d, b)) <= 2 * Loudness(6, d)
  {
    hide Weighted;
    forall i | 1 <= i <= 6
      ensures IsInt16(2 * d[i]) && IsInt16(Weighted(d[i], b[i])) && IsInt16(ZeroTapsAbove(i - 1, d, b))
    {
      QuietZero(d, b, i);
    }
    TapsBound(0, d, b);
  }

  lemma QuietPoles(a: seq<int>, r: seq<int>)
    requires |a| == 3 && |r| == 3 && AllInt16(a) && Loudness(2, r) < 16384
    ensures PolesFit(a, r) && Abs(PoleTaps(a, r)) <= 2 * Loudness(2, r)
  {
    hide Weighted;
    assert Loudness(1, r) == Abs(r[1]);
    assert Loudness(2, r) == Abs(r[1]) + Abs(r[2]);
    TapBound(r[1], a[1]);
    TapBound(r[2], a[2]);
  }

  /** Nothing does as long as the reconstructed values in the delay lines add up to less than half the range, whatever
      the coefficients are. */
  lemma QuietIsUnsaturated(band: BandState)
    requires band.Shaped() && AllInt16(band.a) && AllInt16(band.b)
    requires Loudness(6, band.d) + Loudness(2, band.r) < 16384
    ensures Unsaturated(band)
  {
    hide ZerosFit, PolesFit, ZeroTapsAbove, PoleTaps, Loudness;
    QuietZeros(band.d, band.b);
    QuietPoles(band.a, band.r);
  }
}
