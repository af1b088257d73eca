/** The polyphase resampler of the line simulator, over exact reals: an interpolator by an integer factor and a
    decimator by the same factor. The prototype filters are parameters. */
module LineResampler {

  /** Taps per polyphase branch. */
  const TAPS := 36

  // ---- What the resampler means ----

  /** The signal at time t; zero before it starts. */
  function At(x: seq<real>, t: int): (v: real) {
    if 0 <= t < |x| then x[t] else 0.0
  }

  /** The signal with factor - 1 zeros after every sample. */
  function Stuffed(factor: nat, x: seq<real>, t: int): (v: real)
    requires factor > 0
  {
    if t >= 0 && t % factor == 0 then At(x, t / factor) else 0.0
  }

  /** The first n terms of the convolution of h with the zero-stuffed signal, at time t. */
  function StuffedFir(h: seq<real>, factor: nat, x: seq<real>, t: int, n: nat): (sum: real)
    requires factor > 0 && n <= |h|
  {
    if n == 0 then 0.0 else StuffedFir(h, factor, x, t, n - 1) + h[n - 1] * Stuffed(factor, x, t - (n - 1))
  }

  /** The first n terms of the convolution of h with the signal itself, at time t. */
  function Fir(h: seq<real>, x: seq<real>, t: int, n: nat): (sum: real)
    requires n <= |h|
  {
    if n == 0 then 0.0 else Fir(h, x, t, n - 1) + h[n - 1] * At(x, t - (n - 1))
  }

  // ---- The polyphase identity ----

  /** The first k terms of polyphase branch p at input time n. */
  function Branch(h: seq<real>, factor: nat, p: nat, x: seq<real>, n: int, k: nat): (sum: real)
    requires p < factor && |h| == TAPS * factor && k <= TAPS
  {
    if k == 0 then 0.0
    else
      Branch(h, factor, p, x, n, k - 1) + h[Tap(factor, p, k - 1)] * At(x, n - (k - 1))
  }

  /** Place of tap k of branch p in the prototype. */
  function Tap(factor: nat, p: nat, k: nat): (i: nat)
    requires p < factor && k < TAPS
    ensures i < TAPS * factor
  {
    TapIndex(factor, p, k);
    k * factor + p
  }

  lemma TapIndex(factor: nat, p: nat, k: nat)
    requires p < factor && k < TAPS
    ensures 0 <= k * factor + p < TAPS * factor
    ensures (k + 1) * factor == k * factor + factor <= TAPS * factor
  {
    assert (k + 1) * factor == k * factor + factor;
    assert TAPS * factor == (TAPS - k - 1) * factor + (k + 1) * factor;
    MultipleIsNatural(TAPS - k - 1, factor);
    MultipleIsNatural(k, factor);
  }

  lemma MultipleIsNatural(a: nat, b: nat)
    ensures 0 <= a * b
  {
  }

  lemma MultipleIsBig(e: int, factor: nat)
    ensures e == 0 || e * factor >= factor || e * factor <= 0 - factor
  {
    if e >= 1 {
      assert (e - 1) * factor >= 0;
    } else if e <= -1 {
      assert (-e - 1) * factor >= 0;
    }
  }

  /** Division with remainder is unique. */
  lemma Remainder(a: int, d: int, factor: nat)
    requires 0 <= d < factor
    ensures (a * factor + d) / factor == a && (a * factor + d) % factor == d
  {
    var v := a * factor + d;
    assert v == v / factor * factor + v % factor;
    assert (v / factor - a) * factor == v / factor * factor - a * factor;
    MultipleIsBig(v / factor - a, factor);
  }

  /** Of the terms that belong to one tap of the branch only one meets a sample and not a stuffed zero. */
  lemma {:induction false} OneTermPerTap(h: seq<real>, factor: nat, p: nat, x: seq<real>, a: int, t: int, base: nat,
                                         q: nat)
    requires p < factor && q <= factor && base + q <= |h| && base + p < |h|
    requires t == a * factor + p + base
    ensures StuffedFir(h, factor, x, t, base + q)
            == StuffedFir(h, factor, x, t, base) + (if q > p then h[base + p] * At(x, a) else 0.0)
  {
    hide At, Stuffed;
    if q > 0 {
      OneTermPerTap(h, factor, p, x, a, t, base, q - 1);
      StuffedTerm(factor, x, a, p - (q - 1));
    }
  }

  lemma TimeOfTap(n: int, k: int, factor: int, p: int)
    ensures n * factor + p == (n - k) * factor + p + k * factor
  {
  }

  lemma StuffedTerm(factor: nat, x: seq<real>, a: int, d: int)
    requires 0 - factor < d < factor
    ensures Stuffed(factor, x, a * factor + d) == if d == 0 then At(x, a) else 0.0
  {
    if d >= 0 {
      Remainder(a, d, factor);
      if a < 0 {
        assert (-a - 1) * factor >= 0;
      }
    } else {
      Remainder(a - 1, d + factor, factor);
      assert a * factor + d == (a - 1) * factor + (d + factor);
    }
  }

  lemma EmptySum(h: seq<real>, factor: nat, x: seq<real>, t: int)
    requires factor > 0
    ensures StuffedFir(h, factor, x, t, 0) == 0.0
  {
  }

  /** The polyphase branch is the full prototype convolved with the zero-stuffed input. */
  lemma {:induction false} PolyphaseIsZeroStuffing(h: seq<real>, factor: nat, p: nat, x: seq<real>, n: int, k: nat)
    requires p < factor && |h| == TAPS * factor && k <= TAPS
    ensures 0 <= k * factor <= |h|
    ensures Branch(h, factor, p, x, n, k) == StuffedFir(h, factor, x, n * factor + p, k * factor)
  {
    hide At, StuffedFir;
    if k == 0 {
      EmptySum(h, factor, x, n * factor + p);
    } else {
      PolyphaseIsZeroStuffing(h, factor, p, x, n, k - 1);
      TapIndex(factor, p, k - 1);
      TimeOfTap(n, k - 1, factor, p);
      OneTermPerTap(h, factor, p, x, n - (k - 1), n * factor + p, (k - 1) * factor, factor);
    }
  }

  /** One output of the interpolator: the full prototype on the zero-stuffed input. */
  function Interpolated(h: seq<real>, factor: nat, x: seq<real>, t: int): (y: real)
    requires factor > 0
  {
    StuffedFir(h, factor, x, t, |h|)
  }

  // ---- The resampler object ----

  /** Where a circular history of a given length holds the entry k places back from position pos. */
  function Back(pos: nat, k: nat, length: nat): (i: nat)
    requires pos < length && k < length
    ensures i < length
  {
    if k <= pos then pos - k else pos - k + length
  }

  /** A circular history holds the end of a signal. */
  predicate Holds(ring: seq<real>, pos: nat, x: seq<real>)
    ensures Holds(ring, pos, x) ==> pos < |ring|
  {
    pos < |ring| && forall k | 0 <= k < |ring| :: ring[Back(pos, k, |ring|)] == At(x, |x| - 1 - k)
  }

  lemma PushKeepsHolds(ring: seq<real>, pos: nat, x: seq<real>, v: real)
    requires Holds(ring, pos, x)
    ensures var next := if pos + 1 == |ring| then 0 else pos + 1;
            Holds(ring[next := v], next, x + [v])
  {
    var n := |ring|;
    var next := if pos + 1 == n then 0 else pos + 1;
    forall k | 0 <= k < n ensures ring[next := v][Back(next, k, n)] == At(x + [v], |x| - k) {
      if k > 0 {
        assert Back(next, k, n) == Back(pos, k - 1, n) != next;
      }
    }
  }

  /** Deal the prototype out to the branches. */
  method SplitIntoBranches(up: array2<real>, factor: nat, proto: seq<real>)
    requires up.Length0 == factor && up.Length1 == TAPS && |proto| == TAPS * factor
    modifies up
    ensures forall p, k | 0 <= p < factor && 0 <= k < TAPS :: up[p, k] == proto[Tap(factor, p, k)]
  {
    hide Tap;
    for p := 0 to factor
      invariant forall q, k | 0 <= q < p && 0 <= k < TAPS :: up[q, k] == proto[Tap(factor, q, k)]
    {
      for k := 0 to TAPS
        invariant forall q, j | 0 <= q < p && 0 <= j < TAPS :: up[q, j] == proto[Tap(factor, q, j)]
        invariant forall j | 0 <= j < k :: up[p, j] == proto[Tap(factor, p, j)]
      {
        up[p, k] := proto[Tap(factor, p, k)];
      }
    }
  }

  class Resampler {
    const factor: nat
    ghost const protoUp: seq<real>
    const up: array2<real>
    const upHist: array<real>
    var upPos: nat
    const down: seq<real>
    const downHist: array<real>
    var downPos: nat
    var downPhase: nat
    ghost var upIn: seq<real>    // everything pushed into the interpolator
    ghost var downIn: seq<real>  // everything pushed into the decimator

    ghost predicate Valid()
      reads this, up, upHist, downHist
    {
      && factor > 0 && |protoUp| == |down| == TAPS * factor
      && up.Length0 == factor && up.Length1 == TAPS
      && (forall p, k | 0 <= p < factor && 0 <= k < TAPS :: up[p, k] == protoUp[Tap(factor, p, k)])
      && upHist != downHist
      && upHist.Length == TAPS && Holds(upHist[..], upPos, upIn)
      && downHist.Length == |down| && Holds(downHist[..], downPos, downIn)
      && downPhase < factor && downPhase == |downIn| % factor
    }

    /** resamp_init, given the two prototypes. */
    constructor (ratio: nat, lowpassUp: seq<real>, lowpassDown: seq<real>)
      requires ratio > 0 && |lowpassUp| == |lowpassDown| == TAPS * ratio
      ensures Valid() && fresh(up) && fresh(upHist) && fresh(downHist)
      ensures factor == ratio && protoUp == lowpassUp && down == lowpassDown && upIn == [] && downIn == []
    {
      hide Tap;
      factor, protoUp, down := ratio, lowpassUp, lowpassDown;
      up := new real[ratio, TAPS];
      upHist := new real[TAPS](_ => 0.0);
      downHist := new real[TAPS * ratio](_ => 0.0);
      upPos, downPos, downPhase := 0, 0, 0;
      upIn, downIn := [], [];
      new;
      assert TAPS * ratio > 0;
      SplitIntoBranches(up, factor, lowpassUp);
    }

    /** resamp_up: one sample in, factor samples out. Each is the full prototype applied to the zero-stuffed
        signal at its own time on the faster clock. */
    method Up(x: real) returns (out: seq<real>)
      requires Valid()
      modifies this`upPos, this`upIn, upHist
      ensures Valid() && upIn == old(upIn) + [x]
      ensures |out| == factor
      ensures forall p | 0 <= p < factor :: out[p] == Interpolated(protoUp, factor, upIn, (|upIn| - 1) * factor + p)
    {
      hide Tap, Interpolated, Branch;
      PushUp(x);
      out := [];
      for p := 0 to factor
        invariant Valid() && upIn == old(upIn) + [x] && |out| == p
        invariant forall q | 0 <= q < p :: out[q] == Interpolated(protoUp, factor, upIn, (|upIn| - 1) * factor + q)
      {
        var acc := UpBranch(p);
        BranchIsInterpolated(protoUp, factor, p, upIn);
        out := out + [acc];
      }
    }

    method PushUp(x: real)
      requires Valid()
      modifies this`upPos, this`upIn, upHist
      ensures Valid() && upIn == old(upIn) + [x]
    {
      hide Tap, Holds;
      PushKeepsHolds(upHist[..], upPos, upIn, x);
      upPos := (upPos + 1) % TAPS;
      upHist[upPos] := x;
      assert upHist[..] == old(upHist[..])[upPos := x];
      upIn := upIn + [x];
    }

    method UpBranch(p: nat) returns (acc: real)
      requires Valid() && p < factor
      ensures acc == Branch(protoUp, factor, p, upIn, |upIn| - 1, TAPS)
    {
      hide Tap;
      acc := 0.0;
      var idx := upPos;
      for k := 0 to TAPS
        invariant k < TAPS ==> idx == Back(upPos, k, TAPS)
        invariant acc == Branch(protoUp, factor, p, upIn, |upIn| - 1, k)
      {
        assert upHist[idx] == upHist[..][Back(upPos, k, TAPS)] == At(upIn, |upIn| - 1 - k);
        acc := acc + up[p, k] * upHist[idx];
        idx := (idx - 1 + TAPS) % TAPS;
      }
    }

    /** resamp_down: every factor-th call delivers the full-rate filter's output at that time. */
    method Down(x: real) returns (ready: bool, out: real)
      requires Valid()
      modifies this`downPos, this`downPhase, this`downIn, downHist
      ensures Valid() && downIn == old(downIn) + [x]
      ensures ready == (|downIn| % factor == 0)
      ensures ready ==> out == Fir(down, downIn, |downIn| - 1, |down|)
    {
      hide Tap, Holds, Fir;
      PushDown(x);
      ready := downPhase == 0;
      out := 0.0;
      if ready {
        out := DownSum();
      }
    }

    /** Take in one sample and advance the phase, which is zero after every factor-th. */
    method PushDown(x: real)
      requires Valid()
      modifies this`downPos, this`downPhase, this`downIn, downHist
      ensures Valid() && downIn == old(downIn) + [x]
    {
      hide Tap, Holds;
      PushKeepsHolds(downHist[..], downPos, downIn, x);
      NextPhase(|downIn|, factor);
      downPos := if downPos + 1 == |down| then 0 else downPos + 1;
      downHist[downPos] := x;
      assert downHist[..] == old(downHist[..])[downPos := x];
      downIn := downIn + [x];
      downPhase := downPhase + 1;
      if !(downPhase < factor) { downPhase := 0; }
    }

    method DownSum() returns (acc: real)
      requires Valid()
      ensures acc == Fir(down, downIn, |downIn| - 1, |down|)
    {
      hide Tap;
      acc := 0.0;
      var idx := downPos;
      for k := 0 to |down|
        invariant k < |down| ==> idx == Back(downPos, k, |down|)
        invariant acc == Fir(down, downIn, |downIn| - 1, k)
      {
        assert downHist[idx] == downHist[..][Back(downPos, k, |down|)] == At(downIn, |downIn| - 1 - k);
        acc := acc + down[k] * downHist[idx];
        idx := if idx == 0 then |down| - 1 else idx - 1;
      }
    }
  }

  lemma NextPhase(n: nat, factor: nat)
    requires factor > 0
    ensures (n + 1) % factor == if n % factor + 1 == factor then 0 else n % factor + 1
  {
    var a, d := n / factor, n % factor;
    assert n == a * factor + d;
    if d + 1 == factor {
      Remainder(a + 1, 0, factor);
      assert n + 1 == (a + 1) * factor;
    } else {
      Remainder(a, d + 1, factor);
    }
  }

  lemma BranchIsInterpolated(h: seq<real>, factor: nat, p: nat, x: seq<real>)
    requires p < factor && |h| == TAPS * factor
    ensures Branch(h, factor, p, x, |x| - 1, TAPS) == Interpolated(h, factor, x, (|x| - 1) * factor + p)
  {
    PolyphaseIsZeroStuffing(h, factor, p, x, |x| - 1, TAPS);
  }
}
