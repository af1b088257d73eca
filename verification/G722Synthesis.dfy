/** What the G.722 decoder delivers: its output as a filter over everything it has decoded. */
module G722Synthesis {
  import opened FixedPoint
  import opened G722Tables
  import opened G722Quantizer
  import opened G722Band
  import opened G722Qmf
  import opened G722Codec

  /** The limited samples of the two sub-bands for the k-th octet. */
  function LowPart(d: CodecState, octets: seq<int>, k: nat): (rl: int)
    requires Ready(d) && Octets(octets) && k < |octets|
    ensures -16384 <= rl <= 16383
  {
    LimitPcm(SubbandOutput(d, octets, k))
  }

  function HighPart(d: CodecState, octets: seq<int>, k: nat): (rh: int)
    requires Ready(d) && Octets(octets) && k < |octets|
    ensures -16384 <= rh <= 16383
  {
    LimitPcm(HighOutput(d, octets, k))
  }

  /** Lower sub-band minus upper, and plus upper, octet by octet. */
  function Differences(d: CodecState, octets: seq<int>): (x: seq<int>)
    requires Ready(d) && Octets(octets)
    ensures |x| == |octets|
  {
    seq(|octets|, k requires 0 <= k < |octets| => LowPart(d, octets, k) - HighPart(d, octets, k))
  }

  function Sums(d: CodecState, octets: seq<int>): (x: seq<int>)
    requires Ready(d) && Octets(octets)
    ensures |x| == |octets|
  {
    seq(|octets|, k requires 0 <= k < |octets| => LowPart(d, octets, k) + HighPart(d, octets, k))
  }

  /** The upper level is the table's level, scaled, with the sign of the code. */
  lemma UpperLevel(ih: nat, det: int)
    requires ih < 4 && IsStep(det)
    ensures var level := if ih % 2 == 0 then 7408 else 1616;
            InvQuantAH(ih, det) == (if ih < 2 then -(level * det) else level * det) / 32768
  {
    FloorMonotone(7408 * det, 7408 * 16384);
    FloorMonotone(-7408 * 16384, -(7408 * det));
  }

  /** Convolution of every second tap with a signal, ending at time t. */
  function EverySecond(start: nat, n: nat, x: seq<int>, t: int): (sum: int)
    requires start < 2 && n <= 12
  {
    if n == 0 then 0 else EverySecond(start, n - 1, x, t) + Qmf(2 * (n - 1) + start) * Past(x, t - (n - 1))
  }

  /** The delay line holds the two signals interleaved, newest first, from one octet before time t on. */
  predicate Interleaved(line: seq<int>, even: seq<int>, odd: seq<int>, t: int) {
    |line| == 24 && forall j | 1 <= j < 12 :: line[2 * j] == Past(even, t - j) && line[2 * j + 1] == Past(odd, t - j)
  }

  lemma InterleavedFurther(line: seq<int>, even: seq<int>, odd: seq<int>, t: nat)
    requires Interleaved(line, even, odd, t) && t < |even| == |odd|
    ensures var loaded := Loaded(line, even[t], odd[t]);
            && (forall j | 0 <= j < 12 :: loaded[2 * j] == Past(even, t - j) && loaded[2 * j + 1] == Past(odd, t - j))
            && Interleaved(Moved(loaded), even, odd, t + 1)
  {
    var loaded := Loaded(line, even[t], odd[t]);
    forall j | 1 <= j < 12
      ensures Moved(loaded)[2 * j] == Past(even, t + 1 - j) && Moved(loaded)[2 * j + 1] == Past(odd, t + 1 - j)
    {
      assert Moved(loaded)[2 * j] == loaded[2 * (j - 1)] && Moved(loaded)[2 * j + 1] == loaded[2 * (j - 1) + 1];
    }
  }

  /** What one octet does to the line and what it delivers. */
  lemma OctetFiltered(st: CodecState, octet: int)
    requires Ready(st) && IsOctet(octet)
    ensures var rl := LimitPcm(Reconstructed(st.lo, octet % 64));
            var rh := LimitPcm(ReconstructedHigh(st.hi, octet / 64));
            var line := Loaded(st.line, rl - rh, rl + rh);
            var out := DecodeOctet(st, octet);
            && out.0.line == Moved(line)
            && out.1 == Sat16(Phase(0, 12, line) / 4096) && out.2 == Sat16(Phase(1, 12, line) / 4096)
  {
    hide LowStep, HighStep, Reconstructed, ReconstructedHigh, LimitPcm, Phase, Loaded, Moved;
  }

  /** The decoder in front of the k-th octet. */
  function StateAt(d: CodecState, octets: seq<int>, k: nat): (st: CodecState)
    requires Ready(d) && Octets(octets) && k <= |octets|
    ensures Ready(st)
  {
    DecodeRun(d, octets[..k]).0
  }

  function Pcm(d: CodecState, octets: seq<int>): (pcm: seq<int>)
    requires Ready(d) && Octets(octets)
    ensures |pcm| == 2 * |octets|
  {
    DecodeRun(d, octets).1
  }

  lemma RunOfOctet(st: CodecState, octet: int)
    requires Ready(st) && IsOctet(octet)
    ensures Octets([octet]) && DecodeRun(st, [octet]).0 == DecodeOctet(st, octet).0
  {
    hide Ready, DecodeOctet;
    assert [octet][1..] == [];
  }

  lemma SplitOctetRun(d: CodecState, octets: seq<int>, k: nat)
    requires Ready(d) && Octets(octets) && k <= |octets|
    ensures Pcm(d, octets) == Pcm(d, octets[..k]) + Pcm(StateAt(d, octets, k), octets[k..])
  {
    hide Ready, DecodeRun;
    assert octets[..k] + octets[k..] == octets;
    DecodeInBlocks(d, octets[..k], octets[k..]);
  }

  /** The k-th octet moves the decoder on ... */
  lemma NextState(d: CodecState, octets: seq<int>, k: nat)
    requires Ready(d) && Octets(octets) && k < |octets|
    ensures StateAt(d, octets, k + 1) == DecodeOctet(StateAt(d, octets, k), octets[k]).0
  {
    hide Ready, DecodeRun, DecodeOctet;
    assert octets[..k] + [octets[k]] == octets[..k + 1];
    RunOfOctet(StateAt(d, octets, k), octets[k]);
    DecodeInBlocks(d, octets[..k], [octets[k]]);
  }

  /** ... and its two samples are delivered, in order. */
  lemma NextSamples(d: CodecState, octets: seq<int>, k: nat)
    requires Ready(d) && Octets(octets) && k < |octets|
    ensures var out := DecodeOctet(StateAt(d, octets, k), octets[k]);
            Pcm(d, octets)[2 * k] == out.1 && Pcm(d, octets)[2 * k + 1] == out.2
  {
    hide Ready, DecodeOctet;
    var mid, rest := StateAt(d, octets, k), octets[k..];
    SplitOctetRun(d, octets, k);
    FirstSamples(mid, rest);
    hide DecodeRun, StateAt, Pcm;
    var head, tail := Pcm(d, octets[..k]), Pcm(mid, rest);
    assert (head + tail)[2 * k] == tail[0] && (head + tail)[2 * k + 1] == tail[1];
  }

  lemma FirstSamples(st: CodecState, octets: seq<int>)
    requires Ready(st) && Octets(octets) && octets != []
    ensures var out := DecodeOctet(st, octets[0]); Pcm(st, octets)[0] == out.1 && Pcm(st, octets)[1] == out.2
  {
    hide Ready, DecodeOctet;
  }

  /** From a silent line on, the decoder's line holds the decoded differences and sums. */
  lemma {:induction false} LineAfterOctets(d: CodecState, octets: seq<int>, k: nat)
    requires Ready(d) && d.line == Zeros(24) && Octets(octets) && k <= |octets|
    ensures Interleaved(StateAt(d, octets, k).line, Differences(d, octets), Sums(d, octets), k)
  {
    hide Ready, DecodeRun, DecodeOctet, Interleaved, Loaded, Moved, Phase, Reconstructed, ReconstructedHigh, LimitPcm;
    if k == 0 {
      SilentLine(d, octets);
    } else {
      LineAfterOctets(d, octets, k - 1);
      NextState(d, octets, k - 1);
      OctetFiltered(StateAt(d, octets, k - 1), octets[k - 1]);
      InterleavedFurther(StateAt(d, octets, k - 1).line, Differences(d, octets), Sums(d, octets), k - 1);
    }
  }

  lemma SilentLine(d: CodecState, octets: seq<int>)
    requires Ready(d) && d.line == Zeros(24) && Octets(octets)
    ensures Interleaved(StateAt(d, octets, 0).line, Differences(d, octets), Sums(d, octets), 0)
  {
    hide Ready;
  }

  lemma {:induction false} PhaseIsConvolution(start: nat, n: nat, line: seq<int>, x: seq<int>, t: int)
    requires start < 2 && n <= 12 && |line| == 24
    requires forall j | 0 <= j < 12 :: line[2 * j + start] == Past(x, t - j)
    ensures Phase(start, n, line) == EverySecond(start, n, x, t)
  {
    hide Qmf, Past;
    if n > 0 {
      PhaseIsConvolution(start, n - 1, line, x, t);
      assert line[2 * (n - 1) + start] == Past(x, t - (n - 1));
    }
  }

  /** From reset on, or with any bands and a silent line, every first sample of a pair is the convolution of the even
      taps with the whole sequence of lower minus upper sub-band samples, and every second sample that of the odd taps
      with lower plus upper, scaled and saturated. */
  lemma SynthesisIsConvolution(d: CodecState, octets: seq<int>, k: nat)
    requires Ready(d) && d.line == Zeros(24) && Octets(octets) && k < |octets|
    ensures var pcm := Pcm(d, octets);
            && pcm[2 * k] == Sat16(EverySecond(0, 12, Differences(d, octets), k) / 4096)
            && pcm[2 * k + 1] == Sat16(EverySecond(1, 12, Sums(d, octets), k) / 4096)
  {
    hide Ready, DecodeRun, DecodeOctet, Interleaved, Loaded, Moved, Phase, Reconstructed, ReconstructedHigh, LimitPcm;
    hide EverySecond, Past;
    var mid, even, odd := StateAt(d, octets, k), Differences(d, octets), Sums(d, octets);
    LineAfterOctets(d, octets, k);
    NextSamples(d, octets, k);
    OctetFiltered(mid, octets[k]);
    InterleavedFurther(mid.line, even, odd, k);
    var line := Loaded(mid.line, even[k], odd[k]);
    PhaseIsConvolution(0, 12, line, even, k);
    PhaseIsConvolution(1, 12, line, odd, k);
  }

  lemma ResetIsSilent()
    ensures ResetState().line == Zeros(24) && Ready(ResetState()) && Stable(ResetState())
  {
    ResetIsStable();
  }
}
