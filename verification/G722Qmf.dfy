/** The 24-tap quadrature mirror filter pair of the codec. */
module G722Qmf {
  import opened FixedPoint
  import opened G722Tables
  import opened G722Band

  // ---- What the filters mean ----

  /** Tap k of the low-pass prototype, or of its mirror image, in which every second sign is changed. */
  function Tap(mirror: bool, k: nat): (q: int)
    requires k < 24
  {
    if mirror && k % 2 == 1 then -Qmf(k) else Qmf(k)
  }

  /** Sum of the first k products of taps and line. */
  function Fir(mirror: bool, k: nat, line: seq<int>): (sum: int)
    requires k <= |line| == 24
  {
    if k == 0 then 0 else Fir(mirror, k - 1, line) + Tap(mirror, k - 1) * line[k - 1]
  }

  /** One polyphase branch: every second tap, from tap 0 or from tap 1. */
  function Phase(start: nat, j: nat, line: seq<int>): (sum: int)
    requires start < 2 && j <= 12 && |line| == 24
  {
    if j == 0 then 0 else Phase(start, j - 1, line) + Qmf(2 * (j - 1) + start) * line[2 * (j - 1) + start]
  }

  /** The delay line while one pair of samples is being filtered. */
  function Loaded(dl: seq<int>, x0: int, x1: int): (line: seq<int>)
    requires |dl| == 24
    ensures |line| == 24
  {
    [x0, x1] + dl[2..]
  }

  /** The delay line left behind for the next pair. */
  function Moved(line: seq<int>): (dl: seq<int>)
    requires |line| == 24
    ensures |dl| == 24
  {
    line[..2] + line[..22]
  }

  function LowBand(line: seq<int>): (xl: int)
    requires |line| == 24
    ensures -16384 <= xl <= 16383
  {
    LimitPcm(Fir(false, 24, line) / 32768)
  }

  function HighBand(line: seq<int>): (xh: int)
    requires |line| == 24
    ensures -16384 <= xh <= 16383
  {
    LimitPcm(Fir(true, 24, line) / 32768)
  }

  // ---- The accumulators never saturate ----

  function AbsSum(start: nat, j: nat): (sum: nat)
    requires start < 2 && j <= 12
  {
    if j == 0 then 0 else AbsSum(start, j - 1) + Abs(Qmf(2 * (j - 1) + start))
  }

  lemma FirstAbsSums()
    ensures AbsSum(0, 6) == 2438 && AbsSum(1, 6) == 10526
  {
    assert AbsSum(0, 3) == 52;
    assert AbsSum(1, 3) == 440;
  }

  lemma EvenAbsSum()
    ensures AbsSum(0, 12) == 12964
  {
    FirstAbsSums();
    assert AbsSum(0, 9) == 12524;
  }

  lemma OddAbsSum()
    ensures AbsSum(1, 12) == 12964
  {
    FirstAbsSums();
    assert AbsSum(1, 9) == 12912;
  }

  lemma {:induction false} AbsSumGrows(start: nat, i: nat, j: nat)
    requires start < 2 && i <= j <= 12
    ensures AbsSum(start, i) <= AbsSum(start, j)
  {
    hide Qmf;
    if i < j {
      AbsSumGrows(start, i, j - 1);
    }
  }

  lemma ProductBound(q: int, x: int)
    requires IsInt16(x)
    ensures Abs(q * x) <= 32768 * Abs(q)
  {
    if q >= 0 {
      Multiples(q, x);
    } else {
      Multiples(-q, x);
      NegatedProduct(q, x);
    }
  }

  lemma {:induction false} Multiples(a: nat, x: int)
    requires IsInt16(x)
    ensures -32768 * a <= a * x <= 32768 * a
  {
    if a > 0 {
      Multiples(a - 1, x);
      assert a * x == (a - 1) * x + x;
    }
  }

  lemma NegatedProduct(q: int, x: int)
    ensures q * x == -(-q * x)
  {
  }

  lemma {:induction false} PhaseGrows(start: nat, j: nat, line: seq<int>)
    requires start < 2 && j <= 12 && |line| == 24 && AllInt16(line)
    ensures Abs(Phase(start, j, line)) <= 32768 * AbsSum(start, j)
  {
    hide Qmf;
    if j > 0 {
      PhaseGrows(start, j - 1, line);
      var i := 2 * (j - 1) + start;
      ProductBound(Qmf(i), line[i]);
    }
  }

  /** On a 16-bit history every partial sum of a branch stays far inside 32 bits. */
  lemma PhaseBound(start: nat, j: nat, line: seq<int>)
    requires start < 2 && j <= 12 && |line| == 24 && AllInt16(line)
    ensures Abs(Phase(start, j, line)) <= 424804352
  {
    hide Qmf, Phase, AbsSum;
    PhaseGrows(start, j, line);
    AbsSumGrows(start, j, 12);
    EvenAbsSum();
    OddAbsSum();
  }

  /** The two branches add up to the filter and subtract to its mirror image. */
  lemma {:induction false} PhasesMakeFilters(j: nat, line: seq<int>)
    requires j <= 12 && |line| == 24
    ensures Phase(0, j, line) + Phase(1, j, line) == Fir(false, 2 * j, line)
    ensures Phase(0, j, line) - Phase(1, j, line) == Fir(true, 2 * j, line)
  {
    hide Qmf;
    if j > 0 {
      PhasesMakeFilters(j - 1, line);
      TwoTaps(false, j, line);
      TwoTaps(true, j, line);
    }
  }

  lemma TwoTaps(mirror: bool, j: nat, line: seq<int>)
    requires 0 < j <= 12 && |line| == 24
    ensures var even, odd := Qmf(2 * j - 2) * line[2 * j - 2], Qmf(2 * j - 1) * line[2 * j - 1];
            Fir(mirror, 2 * j, line) == Fir(mirror, 2 * j - 2, line) + even + if mirror then -odd else odd
  {
    hide Qmf;
    assert (2 * j - 1) % 2 == 1 && (2 * j - 2) % 2 == 0;
    assert Fir(mirror, 2 * j - 1, line) == Fir(mirror, 2 * j - 2, line) + Qmf(2 * j - 2) * line[2 * j - 2];
    assert Tap(mirror, 2 * j - 1) * line[2 * j - 1]
           == if mirror then -(Qmf(2 * j - 1) * line[2 * j - 1]) else Qmf(2 * j - 1) * line[2 * j - 1];
  }

  // ---- The filters, in place ----

  method Accumulate(dl: array<int>) returns (ea: int, eb: int)
    requires dl.Length == 24 && AllInt16(dl[..])
    ensures ea == Phase(0, 12, dl[..]) && eb == Phase(1, 12, dl[..])
  {
    hide Qmf;
    ea, eb := 0, 0;
    for j := 0 to 12
      invariant ea == Phase(0, j, dl[..]) && eb == Phase(1, j, dl[..])
    {
      PhaseBound(0, j + 1, dl[..]);
      PhaseBound(1, j + 1, dl[..]);
      ea := Sat32(ea + Qmf(2 * j) * dl[2 * j]);
      eb := Sat32(eb + Qmf(2 * j + 1) * dl[2 * j + 1]);
    }
  }

  method MoveOn(dl: array<int>)
    requires dl.Length == 24
    modifies dl
    ensures dl[..] == Moved(old(dl[..]))
  {
    for j := 24 downto 2
      invariant forall k | 0 <= k < j :: dl[k] == old(dl[k])
      invariant forall k | j <= k < 24 :: dl[k] == old(dl[k - 2])
    {
      dl[j] := dl[j - 2];
    }
  }

  /** Split one pair of samples, xin1 before xin0, into the two sub-bands. */
  method QmfAnalysis(dl: array<int>, xin0: int, xin1: int) returns (xl: int, xh: int)
    requires dl.Length == 24 && AllInt16(dl[..]) && IsInt16(xin0) && IsInt16(xin1)
    modifies dl
    ensures var line := Loaded(old(dl[..]), xin0, xin1);
            dl[..] == Moved(line) && xl == LowBand(line) && xh == HighBand(line)
  {
    hide Qmf, Phase, Fir, AbsSum;
    ghost var line := Loaded(dl[..], xin0, xin1);
    dl[1] := xin1;
    dl[0] := xin0;
    assert dl[..] == line;
    var ea, eb := Accumulate(dl);
    MoveOn(dl);
    PhaseBound(0, 12, line);
    PhaseBound(1, 12, line);
    PhasesMakeFilters(12, line);
    var lo := Sat32(Sat32(ea + eb) * 2);
    var hi := Sat32(Sat32(ea - eb) * 2);
    xl := LimitPcm(lo / 65536);
    xh := LimitPcm(hi / 65536);
  }

  /** The sample a synthesis branch delivers. */
  function Synthesised(start: nat, line: seq<int>): (x: int)
    requires start < 2 && |line| == 24
    ensures IsInt16(x)
  {
    Sat16(Phase(start, 12, line) / 4096)
  }

  /** Join the two sub-bands again. Sum and difference of two limited samples always fit. */
  method QmfSynthesis(dl: array<int>, rl: int, rh: int) returns (xout1: int, xout2: int)
    requires dl.Length == 24 && AllInt16(dl[..])
    requires -16384 <= rl <= 16383 && -16384 <= rh <= 16383
    modifies dl
    ensures var line := Loaded(old(dl[..]), rl - rh, rl + rh);
            dl[..] == Moved(line) && xout1 == Synthesised(0, line) && xout2 == Synthesised(1, line)
  {
    hide Qmf, Phase, Fir, AbsSum;
    ghost var line := Loaded(dl[..], rl - rh, rl + rh);
    dl[1] := Add16(rl, rh);
    dl[0] := Sub16(rl, rh);
    assert dl[..] == line;
    var ea, eb := Accumulate(dl);
    MoveOn(dl);
    var lo := Sat32(ea * 16);
    var hi := Sat32(eb * 16);
    xout1 := lo / 65536;
    xout2 := hi / 65536;
  }
}
