/** The two QMF banks of G.722 back to back: with nothing lost in between, they are a delay of 22 samples. */
module G722FilterBank {
  import opened FixedPoint
  import opened G722Tables
  import opened G722Band
  import opened G722Qmf
  import opened G722Codec
  import opened G722Synthesis

  // ---- Filtering twice ----

  /** A tap of one polyphase branch; none outside it. */
  function BranchTap(start: nat, i: int): (q: int)
    requires start < 2
  {
    if 0 <= i < 12 then Qmf(2 * i + start) else 0
  }

  /** The m-th coefficient of the first n taps of one branch after the other branch. */
  function Gain(start: nat, n: nat, m: nat): (g: int)
    requires start < 2 && n <= 12
  {
    if n == 0 then 0 else Gain(start, n - 1, m) + Qmf(2 * (n - 1) + start) * BranchTap(1 - start, m - (n - 1))
  }

  function Response(start: nat, n: nat, count: nat, x: seq<int>, t: int): (sum: int)
    requires start < 2 && n <= 12
  {
    if count == 0 then 0
    else Response(start, n, count - 1, x, t) + Gain(start, n, count - 1) * Past(x, t - (count - 1))
  }

  /** One branch over the whole signal. */
  function Branch(start: nat, x: seq<int>): (y: seq<int>)
    requires start < 2
    ensures |y| == |x| && forall k | 0 <= k < |x| :: y[k] == EverySecond(start, 12, x, k)
  {
    seq(|x|, k requires 0 <= k < |x| => EverySecond(start, 12, x, k))
  }

  lemma {:induction false} NothingBefore(start: nat, n: nat, x: seq<int>, t: int)
    requires start < 2 && n <= 12 && t < 0
    ensures EverySecond(start, n, x, t) == 0
  {
    hide Qmf;
    if n > 0 {
      NothingBefore(start, n - 1, x, t);
    }
  }

  lemma PastBranch(start: nat, x: seq<int>, t: int)
    requires start < 2 && t < |x|
    ensures Past(Branch(start, x), t) == EverySecond(start, 12, x, t)
  {
    hide EverySecond;
    if t < 0 {
      NothingBefore(start, 12, x, t);
    }
  }

  /** A branch from n places back, over more taps than it has. */
  function Shifted(start: nat, n: nat, count: nat, x: seq<int>, t: int): (sum: int)
    requires start < 2
  {
    if count == 0 then 0
    else Shifted(start, n, count - 1, x, t) + BranchTap(start, count - 1 - n) * Past(x, t - (count - 1))
  }

  lemma {:induction false} ShiftedIsBranch(start: nat, n: nat, count: nat, x: seq<int>, t: int)
    requires start < 2 && n <= count <= n + 12
    ensures Shifted(start, n, count, x, t) == EverySecond(start, count - n, x, t - n)
  {
    hide Qmf, Past;
    if count == n {
      NothingShifted(start, n, n, x, t);
    } else {
      ShiftedIsBranch(start, n, count - 1, x, t);
      assert t - n - (count - n - 1) == t - (count - 1);
    }
  }

  lemma {:induction false} NothingShifted(start: nat, n: nat, count: nat, x: seq<int>, t: int)
    requires start < 2 && count <= n
    ensures Shifted(start, n, count, x, t) == 0
  {
    if count > 0 {
      NothingShifted(start, n, count - 1, x, t);
    }
  }

  lemma {:induction false} NoMoreTaps(start: nat, n: nat, count: nat, x: seq<int>, t: int)
    requires start < 2 && n + 12 <= count
    ensures Shifted(start, n, count, x, t) == Shifted(start, n, n + 12, x, t)
  {
    hide Qmf;
    if count > n + 12 {
      NoMoreTaps(start, n, count - 1, x, t);
    }
  }

  lemma OneTermMore(start: nat, n: nat, count: nat, x: seq<int>, t: int)
    requires start < 2 && n <= 12
    ensures Response(start, n, count + 1, x, t)
            == Response(start, n, count, x, t) + Gain(start, n, count) * Past(x, t - count)
    ensures Shifted(start, n, count + 1, x, t)
            == Shifted(start, n, count, x, t) + BranchTap(start, count - n) * Past(x, t - count)
    ensures Response(start, n, 0, x, t) == 0 && Shifted(start, n, 0, x, t) == 0
  {
    hide Gain, BranchTap, Past;
  }

  /** One tap of the outer branch adds a shifted copy of the inner one. */
  lemma {:induction false} OneTapMore(start: nat, n: nat, count: nat, x: seq<int>, t: int)
    requires start < 2 && n < 12
    ensures Response(start, n + 1, count, x, t)
            == Response(start, n, count, x, t) + Qmf(2 * n + start) * Shifted(1 - start, n, count, x, t)
  {
    hide *;
    if count == 0 {
      OneTermMore(start, n, 0, x, t);
      OneTermMore(start, n + 1, 0, x, t);
      OneTermMore(1 - start, n, 0, x, t);
    } else {
      OneTapMore(start, n, count - 1, x, t);
      OneGainMore(start, n, count - 1);
      OneTermMore(start, n, count - 1, x, t);
      OneTermMore(start, n + 1, count - 1, x, t);
      OneTermMore(1 - start, n, count - 1, x, t);
      Distribute(Gain(start, n, count - 1), Qmf(2 * n + start), BranchTap(1 - start, count - 1 - n),
                 Past(x, t - (count - 1)), Shifted(1 - start, n, count - 1, x, t));
    }
  }

  lemma OneGainMore(start: nat, n: nat, m: nat)
    requires start < 2 && n < 12
    ensures Gain(start, n + 1, m) == Gain(start, n, m) + Qmf(2 * n + start) * BranchTap(1 - start, m - n)
  {
    hide Qmf, BranchTap;
  }

  lemma Distribute(g: int, q: int, b: int, v: int, s: int)
    ensures (g + q * b) * v == g * v + q * (b * v) && q * (s + b * v) == q * s + q * (b * v)
  {
  }

  lemma {:induction false} NoGain(start: nat, count: nat, x: seq<int>, t: int)
    requires start < 2
    ensures Response(start, 0, count, x, t) == 0
  {
    if count > 0 {
      NoGain(start, count - 1, x, t);
    }
  }

  /** One branch after the other is a filter of 23 taps. */
  lemma {:induction false} BranchesInSeries(start: nat, n: nat, x: seq<int>, t: nat)
    requires start < 2 && n <= 12 && t < |x|
    ensures EverySecond(start, n, Branch(1 - start, x), t) == Response(start, n, 23, x, t)
  {
    hide Qmf, Gain, BranchTap, Branch, Response, Shifted;
    if n == 0 {
      NoGain(start, 23, x, t);
    } else {
      BranchesInSeries(start, n - 1, x, t);
      OneTapMore(start, n - 1, 23, x, t);
      PastBranch(1 - start, x, t - (n - 1));
      NoMoreTaps(1 - start, n - 1, 23, x, t);
      ShiftedIsBranch(1 - start, n - 1, n + 11, x, t);
    }
  }

  // ---- What the 23 taps are ----

  /** The response of both branches in series: almost nothing but its middle tap. */
  function Series(m: nat): (t: int)
    requires m < 23
  {
    match m
    case 0 => -132 case 1 => 1120 case 2 => -4732 case 3 => 12344 case 4 => -17052 case 5 => -7024
    case 6 => 10672 case 7 => -1728 case 8 => -564 case 9 => -9300 case 10 => 11808 case 11 => 67118040
    case 12 => 11808 case 13 => -9300 case 14 => -564 case 15 => -1728 case 16 => 10672 case 17 => -7024
    case 18 => -17052 case 19 => 12344 case 20 => -4732 case 21 => 1120 case _ => -132
  }

  lemma Gains0()
    ensures Gain(0, 12, 0) == Series(0) && Gain(0, 12, 1) == Series(1) && Gain(0, 12, 2) == Series(2)
  {
  }

  lemma Gains3()
    ensures Gain(0, 12, 3) == Series(3) && Gain(0, 12, 4) == Series(4) && Gain(0, 12, 5) == Series(5)
  {
  }

  lemma Gains6()
    ensures Gain(0, 12, 6) == Series(6) && Gain(0, 12, 7) == Series(7) && Gain(0, 12, 8) == Series(8)
  {
  }

  lemma Gains9()
    ensures Gain(0, 12, 9) == Series(9) && Gain(0, 12, 10) == Series(10) && Gain(0, 12, 11) == Series(11)
  {
  }

  lemma Gains12()
    ensures Gain(0, 12, 12) == Series(12) && Gain(0, 12, 13) == Series(13) && Gain(0, 12, 14) == Series(14)
  {
  }

  lemma Gains15()
    ensures Gain(0, 12, 15) == Series(15) && Gain(0, 12, 16) == Series(16) && Gain(0, 12, 17) == Series(17)
  {
  }

  lemma Gains18()
    ensures Gain(0, 12, 18) == Series(18) && Gain(0, 12, 19) == Series(19) && Gain(0, 12, 20) == Series(20)
  {
  }

  lemma Gains21()
    ensures Gain(0, 12, 21) == Series(21) && Gain(0, 12, 22) == Series(22)
  {
  }

  /** The coefficient as a sum over both branches. */
  function Product(start: nat, n: nat, m: nat): (sum: int)
    requires start < 2
  {
    if n == 0 then 0 else Product(start, n - 1, m) + BranchTap(start, n - 1) * BranchTap(1 - start, m - (n - 1))
  }

  lemma {:induction false} GainIsProduct(start: nat, n: nat, m: nat)
    requires start < 2 && n <= 12
    ensures Gain(start, n, m) == Product(start, n, m)
  {
    hide Qmf;
    if n > 0 {
      GainIsProduct(start, n - 1, m);
    }
  }

  /** Terms beyond either branch are zero. */
  lemma {:induction false} NoMoreTerms(start: nat, n: nat, n': nat, m: nat)
    requires start < 2 && n <= n' && (n >= 12 || n > m)
    ensures Product(start, n', m) == Product(start, n, m)
  {
    hide Qmf;
    if n < n' {
      NoMoreTerms(start, n, n' - 1, m);
      assert BranchTap(start, n' - 1) == 0 || BranchTap(1 - start, m - (n' - 1)) == 0;
    }
  }

  /** The first terms of one order are the last of the other. */
  lemma {:induction false} OtherOrder(start: nat, n: nat, m: nat)
    requires start < 2 && n <= m + 1
    ensures Product(start, n, m) + Product(1 - start, m + 1 - n, m) == Product(1 - start, m + 1, m)
  {
    hide BranchTap;
    if n > 0 {
      OtherOrder(start, n - 1, m);
      assert m - (m + 1 - n) == n - 1;
    }
  }

  lemma GainCommutes(m: nat)
    ensures Gain(1, 12, m) == Gain(0, 12, m)
  {
    hide Gain, Product;
    forall start: nat | start < 2 ensures Gain(start, 12, m) == Product(start, m + 1, m) {
      GainIsProduct(start, 12, m);
      NoMoreTerms(start, 12, m + 13, m);
      NoMoreTerms(start, m + 1, m + 13, m);
    }
    OtherOrder(0, m + 1, m);
    NoTerms(1, m);
  }

  lemma NoTerms(start: nat, m: nat)
    requires start < 2
    ensures Product(start, 0, m) == 0
  {
  }

  lemma GainsAre(start: nat, m: nat)
    requires start < 2 && m < 23
    ensures Gain(start, 12, m) == Series(m)
  {
    hide Gain, Series;
    Gains0();
    Gains3();
    Gains6();
    Gains9();
    Gains12();
    Gains15();
    Gains18();
    Gains21();
    GainCommutes(m);
  }

  /** Everything but the middle tap adds up to less than a 400th of it. */
  function Ripple(count: nat): (sum: nat)
    requires count <= 23
  {
    if count == 0 then 0 else Ripple(count - 1) + if count - 1 == 11 then 0 else Abs(Series(count - 1))
  }

  lemma RippleIs()
    ensures Ripple(23) == 152952 && Series(11) == 67118040
  {
    assert Ripple(12) == 76476;
  }

  /** The middle tap of the first count taps. */
  function Middle(count: nat, v: int): (d: int) {
    if count > 11 then Series(11) * v else 0
  }

  lemma {:induction false} ResponseIsDelay(start: nat, count: nat, x: seq<int>, t: int, peak: nat)
    requires start < 2 && count <= 23 && forall k | 0 <= k < |x| :: Abs(x[k]) <= peak
    ensures Abs(Response(start, 12, count, x, t) - Middle(count, Past(x, t - 11))) <= Ripple(count) * peak
  {
    hide *;
    if count == 0 {
      OneTermMore(start, 12, 0, x, t);
      NothingYet(Past(x, t - 11), peak);
    } else {
      PastBelow(x, t - (count - 1), peak);
      ResponseIsDelay(start, count - 1, x, t, peak);
      OneTermMore(start, 12, count - 1, x, t);
      GainsAre(start, count - 1);
      Accumulates(Response(start, 12, count - 1, x, t), count - 1, Past(x, t - 11), Past(x, t - (count - 1)), peak);
    }
  }

  lemma NothingYet(v: int, peak: nat)
    ensures Middle(0, v) == 0 && Ripple(0) * peak == 0 && Abs(0) == 0
  {
  }

  lemma Accumulates(r: int, n: nat, v: int, w: int, peak: nat)
    requires n < 23 && Abs(w) <= peak && (n == 11 ==> w == v)
    requires Abs(r - Middle(n, v)) <= Ripple(n) * peak
    ensures Abs(r + Series(n) * w - Middle(n + 1, v)) <= Ripple(n + 1) * peak
  {
    hide Series;
    if n != 11 {
      ProductBelow(Series(n), w, peak);
      Spread(Ripple(n), Abs(Series(n)), peak);
    }
  }

  lemma PastBelow(x: seq<int>, t: int, peak: nat)
    requires forall k | 0 <= k < |x| :: Abs(x[k]) <= peak
    ensures Abs(Past(x, t)) <= peak
  {
  }

  lemma ProductBelow(a: int, b: int, peak: nat)
    requires Abs(b) <= peak
    ensures Abs(a * b) <= Abs(a) * peak
  {
    assert Abs(a * b) == Abs(a) * Abs(b);
    assert Abs(a) * Abs(b) <= Abs(a) * peak;
  }

  lemma Spread(a: int, b: int, c: int)
    ensures (a + b) * c == a * c + b * c
  {
  }

  // ---- The two banks back to back ----

  function Evens(pcm: seq<int>): (x: seq<int>)
    ensures |x| == |pcm| / 2
  {
    seq(|pcm| / 2, k requires 0 <= k < |pcm| / 2 => pcm[2 * k])
  }

  function Odds(pcm: seq<int>): (x: seq<int>)
    ensures |x| == |pcm| / 2
  {
    seq(|pcm| / 2, k requires 0 <= k < |pcm| / 2 => pcm[2 * k + 1])
  }

  /** The analysis filters as the sum and the difference of two branches over every second sample. */
  lemma {:induction false} AnalysisInBranches(n: nat, pcm: seq<int>, k: nat)
    requires n <= 12 && 2 * k + 1 < |pcm|
    ensures Convolve(false, 2 * n, pcm, 2 * k + 1) == EverySecond(0, n, Odds(pcm), k) + EverySecond(1, n, Evens(pcm), k)
    ensures Convolve(true, 2 * n, pcm, 2 * k + 1) == EverySecond(0, n, Odds(pcm), k) - EverySecond(1, n, Evens(pcm), k)
  {
    hide Qmf;
    if n > 0 {
      AnalysisInBranches(n - 1, pcm, k);
      TwoConvolved(false, n, pcm, k);
      TwoConvolved(true, n, pcm, k);
    }
  }

  lemma TwoConvolved(mirror: bool, n: nat, pcm: seq<int>, k: nat)
    requires 0 < n <= 12 && 2 * k + 1 < |pcm|
    ensures var even := Qmf(2 * n - 2) * Past(Odds(pcm), k - (n - 1));
            var odd := Qmf(2 * n - 1) * Past(Evens(pcm), k - (n - 1));
            Convolve(mirror, 2 * n, pcm, 2 * k + 1)
            == Convolve(mirror, 2 * n - 2, pcm, 2 * k + 1) + even + if mirror then -odd else odd
  {
    hide Qmf;
    assert (2 * n - 1) % 2 == 1 && (2 * n - 2) % 2 == 0;
    assert Past(pcm, 2 * k + 1 - (2 * n - 2)) == Past(Odds(pcm), k - (n - 1));
    assert Past(pcm, 2 * k + 1 - (2 * n - 1)) == Past(Evens(pcm), k - (n - 1));
  }

  /** The sub-bands of a signal from reset on. */
  function Low(pcm: seq<int>, k: nat): (xl: int) {
    LimitPcm(Convolve(false, 24, pcm, 2 * k + 1) / 32768)
  }

  function High(pcm: seq<int>, k: nat): (xh: int) {
    LimitPcm(Convolve(true, 24, pcm, 2 * k + 1) / 32768)
  }

  /** Lower minus upper sub-band, or plus. */
  function Parts(start: nat, pcm: seq<int>): (x: seq<int>)
    requires start < 2
    ensures |x| == |pcm| / 2
  {
    seq(|pcm| / 2, i requires 0 <= i < |pcm| / 2 =>
      if start == 0 then Low(pcm, i) - High(pcm, i) else Low(pcm, i) + High(pcm, i))
  }

  /** What the decoder's bank makes of these sub-bands. */
  function Rebuilt(start: nat, pcm: seq<int>, k: nat): (x: int)
    requires start < 2
  {
    Sat16(EverySecond(start, 12, Parts(start, pcm), k) / 4096)
  }

  lemma {:induction false} BranchBelow(start: nat, n: nat, x: seq<int>, t: int, peak: nat)
    requires start < 2 && n <= 12 && forall k | 0 <= k < |x| :: Abs(x[k]) <= peak
    ensures Abs(EverySecond(start, n, x, t)) <= AbsSum(start, n) * peak
  {
    hide Qmf, Past;
    if n > 0 {
      BranchBelow(start, n - 1, x, t, peak);
      PastBelow(x, t - (n - 1), peak);
      ProductBelow(Qmf(2 * (n - 1) + start), Past(x, t - (n - 1)), peak);
      Spread(AbsSum(start, n - 1), Abs(Qmf(2 * (n - 1) + start)), peak);
    }
  }

  /** Nearly proportional inputs give nearly proportional outputs. */
  lemma {:induction false} BranchClose(start: nat, n: nat, x: seq<int>, y: seq<int>, t: int, slack: nat)
    requires start < 2 && n <= 12 && |x| == |y| && forall k | 0 <= k < |x| :: Abs(32768 * x[k] - 2 * y[k]) <= slack
    ensures Abs(32768 * EverySecond(start, n, x, t) - 2 * EverySecond(start, n, y, t)) <= AbsSum(start, n) * slack
  {
    hide Qmf;
    if n > 0 {
      BranchClose(start, n - 1, x, y, t, slack);
      var q, u, v := Qmf(2 * (n - 1) + start), Past(x, t - (n - 1)), Past(y, t - (n - 1));
      assert Abs(32768 * u - 2 * v) <= slack;
      var before, before' := EverySecond(start, n - 1, x, t), EverySecond(start, n - 1, y, t);
      assert EverySecond(start, n, x, t) == before + q * u && EverySecond(start, n, y, t) == before' + q * v;
      assert AbsSum(start, n) == AbsSum(start, n - 1) + Abs(q);
      hide *;
      StaysClose(before, before', q, u, v, AbsSum(start, n - 1), slack);
    }
  }

  lemma StaysClose(x: int, y: int, q: int, u: int, v: int, sum: nat, slack: nat)
    requires Abs(32768 * x - 2 * y) <= sum * slack && Abs(32768 * u - 2 * v) <= slack
    ensures Abs(32768 * (x + q * u) - 2 * (y + q * v)) <= (sum + Abs(q)) * slack
  {
    ProductBelow(q, 32768 * u - 2 * v, slack);
    Spread(sum, Abs(q), slack);
    OneProduct(q, u, v);
  }

  lemma OneProduct(q: int, u: int, v: int)
    ensures q * (32768 * u - 2 * v) == 32768 * (q * u) - 2 * (q * v)
  {
  }

  /** Every second sample of the signal: those that come out of a branch of the decoder. */
  function Half(start: nat, pcm: seq<int>): (x: seq<int>)
    requires start < 2
    ensures |x| == |pcm| / 2
  {
    if start == 0 then Evens(pcm) else Odds(pcm)
  }

  lemma HalfBelow(start: nat, pcm: seq<int>, peak: nat)
    requires start < 2 && forall i | 0 <= i < |pcm| :: Abs(pcm[i]) <= peak
    ensures forall k | 0 <= k < |pcm| / 2 :: Abs(Half(start, pcm)[k]) <= peak
  {
  }

  /** The largest peak at which no signal can make the limiter of a sub-band act: the taps add up to 25928. */
  const LOUDEST := 16384 * 32768 / 25928

  /** Up to there neither sub-band is limited, and the parts are twice a branch, up to rounding. */
  lemma PartsAreBranches(start: nat, pcm: seq<int>, peak: nat, k: nat)
    requires start < 2 && k < |pcm| / 2 && peak <= LOUDEST && forall i | 0 <= i < |pcm| :: Abs(pcm[i]) <= peak
    ensures Abs(32768 * Parts(start, pcm)[k] - 2 * Branch(1 - start, Half(start, pcm))[k]) <= 65534
  {
    hide EverySecond, Convolve, Evens, Odds, LimitPcm;
    AnalysisInBranches(12, pcm, k);
    HalfBranchBelow(0, pcm, peak, k);
    HalfBranchBelow(1, pcm, peak, k);
    Rounded(EverySecond(0, 12, Odds(pcm), k), EverySecond(1, 12, Evens(pcm), k));
  }

  lemma HalfBranchBelow(start: nat, pcm: seq<int>, peak: nat, k: nat)
    requires start < 2 && peak <= LOUDEST && forall i | 0 <= i < |pcm| :: Abs(pcm[i]) <= peak
    ensures Abs(EverySecond(start, 12, Half(1 - start, pcm), k)) <= 12964 * LOUDEST
  {
    hide *;
    HalfBelow(1 - start, pcm, peak);
    BranchBelow(start, 12, Half(1 - start, pcm), k, peak);
    EvenAbsSum();
    OddAbsSum();
  }

  lemma Rounded(a: int, b: int)
    requires Abs(a) <= 12964 * LOUDEST && Abs(b) <= 12964 * LOUDEST
    ensures var low, high := LimitPcm((a + b) / 32768), LimitPcm((a - b) / 32768);
            Abs(32768 * (low - high) - 2 * b) <= 65534 && Abs(32768 * (low + high) - 2 * a) <= 65534
  {
  }

  /** With nothing lost between them, the two banks are a delay of 22 samples: for a signal up to 20706 either sample of
      a pair is the sample 22 places back, up to a 400th of the peak and 8 units of rounding. */
  lemma FilterBanksAreDelay(pcm: seq<int>, k: nat, peak: nat)
    requires 2 * k + 1 < |pcm| && peak <= LOUDEST && forall i | 0 <= i < |pcm| :: Abs(pcm[i]) <= peak
    ensures 400 * Abs(Rebuilt(0, pcm, k) - Past(pcm, 2 * k - 22)) <= peak + 3200
    ensures 400 * Abs(Rebuilt(1, pcm, k) - Past(pcm, 2 * k + 1 - 22)) <= peak + 3200
  {
    hide *;
    HalfDelayed(0, pcm, k, peak);
    HalfDelayed(1, pcm, k, peak);
  }

  lemma HalfDelayed(start: nat, pcm: seq<int>, k: nat, peak: nat)
    requires start < 2 && 2 * k + 1 < |pcm| && peak <= LOUDEST && forall i | 0 <= i < |pcm| :: Abs(pcm[i]) <= peak
    ensures Past(Half(start, pcm), k - 11) == Past(pcm, 2 * k + start - 22)
    ensures 400 * Abs(Rebuilt(start, pcm, k) - Past(Half(start, pcm), k - 11)) <= peak + 3200
  {
    hide *;
    SameSample(start, pcm, k);
    SampleBelow(start, pcm, k - 11, peak);
    RebuiltFromParts(start, pcm, k);
    HalfBelow(start, pcm, peak);
    var x, w := Half(start, pcm), EverySecond(start, 12, Parts(start, pcm), k);
    PartsFiltered(start, pcm, k, peak);
    ResponseIsDelay(start, 23, x, k, peak);
    RippleIs();
    MiddleIs(Past(x, k - 11));
    Scaled(w, Response(start, 12, 23, x, k), Past(x, k - 11), peak);
  }

  lemma SampleBelow(start: nat, pcm: seq<int>, t: int, peak: nat)
    requires start < 2 && forall i | 0 <= i < |pcm| :: Abs(pcm[i]) <= peak
    ensures Abs(Past(Half(start, pcm), t)) <= peak
  {
    HalfBelow(start, pcm, peak);
    PastBelow(Half(start, pcm), t, peak);
  }

  lemma RebuiltFromParts(start: nat, pcm: seq<int>, k: nat)
    requires start < 2
    ensures Rebuilt(start, pcm, k) == Sat16(EverySecond(start, 12, Parts(start, pcm), k) / 4096)
  {
  }

  lemma MiddleIs(v: int)
    ensures Middle(23, v) == Series(11) * v
  {
  }

  /** The parts through the other branch, against both branches in series. */
  lemma PartsFiltered(start: nat, pcm: seq<int>, k: nat, peak: nat)
    requires start < 2 && k < |pcm| / 2 && peak <= LOUDEST && forall i | 0 <= i < |pcm| :: Abs(pcm[i]) <= peak
    ensures Abs(32768 * EverySecond(start, 12, Parts(start, pcm), k) - 2 * Response(start, 12, 23, Half(start, pcm), k))
            <= 12964 * 65534
  {
    hide *;
    var x, parts := Half(start, pcm), Parts(start, pcm);
    forall i | 0 <= i < |parts| ensures Abs(32768 * parts[i] - 2 * Branch(1 - start, x)[i]) <= 65534 {
      PartsAreBranches(start, pcm, peak, i);
    }
    BranchClose(start, 12, parts, Branch(1 - start, x), k, 65534);
    EvenAbsSum();
    OddAbsSum();
    BranchesInSeries(start, 12, x, k);
  }

  lemma SameSample(start: nat, pcm: seq<int>, k: nat)
    requires start < 2 && 2 * k + 1 < |pcm|
    ensures Past(Half(start, pcm), k - 11) == Past(pcm, 2 * k + start - 22)
  {
  }

  lemma Scaled(w: int, r: int, v: int, peak: nat)
    requires peak <= LOUDEST && Abs(v) <= peak
    requires Abs(32768 * w - 2 * r) <= 12964 * 65534 && Abs(r - 67118040 * v) <= 152952 * peak
    ensures 400 * Abs(Sat16(w / 4096) - v) <= peak + 3200
  {
  }

  /** These are the sub-bands of the encoder ... */
  lemma SubbandsOfEncoder(pcm: seq<int>, k: nat)
    requires AllInt16(pcm) && 2 * k + 1 < |pcm|
    ensures SubbandInput(ResetState(), pcm, k) == Low(pcm, k) && HighInput(ResetState(), pcm, k) == High(pcm, k)
  {
    hide Convolve, LimitPcm, HighBand, LowBand, PairLine;
    AnalysisIsConvolution(pcm, k);
  }

  /** ... and the output of a decoder whose sub-bands are the same. */
  lemma OutputOfDecoder(d: CodecState, octets: seq<int>, pcm: seq<int>, k: nat)
    requires Ready(d) && d.line == Zeros(24) && Octets(octets) && |octets| == |pcm| / 2 && k < |octets|
    requires forall i | 0 <= i < |octets| ::
               LowPart(d, octets, i) == Low(pcm, i) && HighPart(d, octets, i) == High(pcm, i)
    ensures Pcm(d, octets)[2 * k] == Rebuilt(0, pcm, k) && Pcm(d, octets)[2 * k + 1] == Rebuilt(1, pcm, k)
  {
    hide Ready, EverySecond, Low, High, LowPart, HighPart, Pcm;
    SynthesisIsConvolution(d, octets, k);
    assert Differences(d, octets) == Parts(0, pcm) && Sums(d, octets) == Parts(1, pcm);
  }
}
