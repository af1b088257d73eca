/** The G.722 encoder and decoder at 64 kbit/s: one octet for every two samples. */
module G722Codec {
  import opened FixedPoint
  import opened G722Tables
  import opened G722Quantizer
  import opened G722Band
  import opened G722Qmf
  import opened Sequences

  /** Encoder and decoder keep the same kind of state; the line is the QMF delay line. */
  datatype CodecState = CodecState(lo: BandState, hi: BandState, line: seq<int>)

  predicate Ready(st: CodecState)
    ensures Ready(st) ==> st.lo.Shaped() && st.hi.Shaped() && |st.line| == 24
  {
    st.lo.Shaped() && st.hi.Shaped() && |st.line| == 24 && AllInt16(st.line)
  }

  /** The predictor invariant of both bands. */
  predicate Stable(st: CodecState)
    ensures Stable(st) ==> Adapted(st.lo, Low)
  {
    Adapted(st.lo, Low) && Adapted(st.hi, High)
  }

  function ResetState(): (st: CodecState)
    ensures Ready(st)
  {
    hide ResetBand;
    CodecState(ResetBand(32), ResetBand(8), Zeros(24))
  }

  lemma ResetIsStable()
    ensures Stable(ResetState())
  {
    hide ResetBand, Adapted;
    ResetIsAdapted();
  }

  predicate IsOctet(o: int) {
    0 <= o < 256
  }

  predicate Octets(s: seq<int>) {
    forall i | 0 <= i < |s| :: IsOctet(s[i])
  }

  // ---- One octet ----

  function LowCode(st: CodecState, line: seq<int>): (il: nat)
    requires |line| == 24
    ensures 4 <= il < 64
  {
    QuantLow(Sub16(LowBand(line), st.lo.s), st.lo.det)
  }

  function HighCode(st: CodecState, line: seq<int>): (ih: nat)
    requires |line| == 24
    ensures ih < 4
  {
    QuantHigh(Sub16(HighBand(line), st.hi.s), st.hi.det)
  }

  function EncodePair(st: CodecState, x: int, y: int): (r: (CodecState, int))
    requires Ready(st) && IsInt16(x) && IsInt16(y)
    ensures Ready(r.0) && IsOctet(r.1)
  {
    hide LowCode, HighCode, LowStep, HighStep;
    var line := Loaded(st.line, y, x);
    var il, ih := LowCode(st, line), HighCode(st, line);
    (CodecState(LowStep(st.lo, il), HighStep(st.hi, ih), Moved(line)), ih * 64 + il)
  }

  /** The decoder's lower sub-band sample before it is limited. */
  function Reconstructed(lo: BandState, il: nat): (y: int)
    requires il < 64
    ensures IsInt16(y)
  {
    Add16(lo.s, InvQuantB(il, lo.det))
  }

  /** The decoder's upper sub-band sample before it is limited. */
  function ReconstructedHigh(hi: BandState, ih: nat): (y: int)
    requires ih < 4
    ensures IsInt16(y)
  {
    Add16(hi.s, InvQuantAH(ih, hi.det))
  }

  function DecodedLow(lo: BandState, il: nat): (rl: int)
    requires il < 64
    ensures -16384 <= rl <= 16383
  {
    LimitPcm(Reconstructed(lo, il))
  }

  function DecodeOctet(st: CodecState, octet: int): (r: (CodecState, int, int))
    requires Ready(st) && IsOctet(octet)
    ensures Ready(r.0) && IsInt16(r.1) && IsInt16(r.2)
  {
    hide LowStep, HighStep, ReconstructedHigh, DecodedLow, Synthesised;
    var il, ih := octet % 64, octet / 64;
    var hi := HighStep(st.hi, ih);
    var rl, rh := DecodedLow(st.lo, il), LimitPcm(ReconstructedHigh(st.hi, ih));
    var line := Loaded(st.line, rl - rh, rl + rh);
    (CodecState(LowStep(st.lo, il), hi, Moved(line)), Synthesised(0, line), Synthesised(1, line))
  }

  // ---- Whole runs ----

  /** Encode sample pairs in order; a last odd sample is not taken. */
  function EncodeRun(st: CodecState, pcm: seq<int>): (r: (CodecState, seq<int>))
    requires Ready(st) && AllInt16(pcm)
    ensures Ready(r.0) && Octets(r.1)
    ensures 2 * |r.1| <= |pcm| < 2 * |r.1| + 2
    decreases |pcm|
  {
    hide Ready, EncodePair;
    if |pcm| < 2 then (st, [])
    else
      var first := EncodePair(st, pcm[0], pcm[1]);
      var rest := EncodeRun(first.0, pcm[2..]);
      (rest.0, [first.1] + rest.1)
  }

  function DecodeRun(st: CodecState, octets: seq<int>): (r: (CodecState, seq<int>))
    requires Ready(st) && Octets(octets)
    ensures Ready(r.0) && AllInt16(r.1) && |r.1| == 2 * |octets|
    decreases |octets|
  {
    hide Ready, DecodeOctet;
    if octets == [] then (st, [])
    else
      var (st1, x, y) := DecodeOctet(st, octets[0]);
      var (st2, rest) := DecodeRun(st1, octets[1..]);
      (st2, [x, y] + rest)
  }

  // ---- Streaming: block boundaries do not matter ----

  /** Encoding block by block is encoding the concatenation, as long as the first block is even. */
  lemma {:induction false} EncodeInBlocks(st: CodecState, first: seq<int>, second: seq<int>, pairs: nat)
    requires Ready(st) && AllInt16(first) && AllInt16(second) && |first| == 2 * pairs
    ensures var (mid, o1) := EncodeRun(st, first);
            var (end, o2) := EncodeRun(mid, second);
            AllInt16(first + second) && EncodeRun(st, first + second) == (end, o1 + o2)
    decreases |first|
  {
    hide Ready, EncodePair;
    if first == [] {
      assert first + second == second;
      var o2 := EncodeRun(st, second).1;
      assert [] + o2 == o2;
    } else {
      var (st1, octet) := EncodePair(st, first[0], first[1]);
      EncodeInBlocks(st1, first[2..], second, pairs - 1);
      assert (first + second)[2..] == first[2..] + second;
      var (mid, o1) := EncodeRun(st1, first[2..]);
      var o2 := EncodeRun(mid, second).1;
      Regroup([octet], o1, o2);
    }
  }

  lemma {:induction false} DecodeInBlocks(st: CodecState, first: seq<int>, second: seq<int>)
    requires Ready(st) && Octets(first) && Octets(second)
    ensures var (mid, x1) := DecodeRun(st, first);
            var (end, x2) := DecodeRun(mid, second);
            Octets(first + second) && DecodeRun(st, first + second) == (end, x1 + x2)
    decreases |first|
  {
    hide Ready, DecodeOctet;
    if first == [] {
      assert first + second == second;
      var x2 := DecodeRun(st, second).1;
      assert [] + x2 == x2;
    } else {
      var (st1, x, y) := DecodeOctet(st, first[0]);
      DecodeInBlocks(st1, first[1..], second);
      assert (first + second)[1..] == first[1..] + second;
      var (mid, x1) := DecodeRun(st1, first[1..]);
      var x2 := DecodeRun(mid, second).1;
      Regroup([x, y], x1, x2);
    }
  }

  // ---- Lockstep ----

  predicate SameBands(x: CodecState, y: CodecState) {
    x.lo == y.lo && x.hi == y.hi
  }

  /** A line may overwrite the two low bits of every octet with other data. */
  predicate SameButLowBits(sent: seq<int>, got: seq<int>) {
    |sent| == |got| && forall k | 0 <= k < |sent| :: sent[k] / 4 == got[k] / 4
  }

  /** The predictor of the lower band never sees the two low bits of its code. */
  lemma LowStepIgnoresLowBits(st: BandState, il: nat, jl: nat)
    requires st.Shaped() && il < 64 && jl < 64 && il / 4 == jl / 4
    ensures LowStep(st, il) == LowStep(st, jl)
  {
    hide Feed, Mult16, Shl3, Ril4, Risil, Wl, Oq4, ScaleLow;
  }

  /** Decoding what was just encoded moves equal bands on to equal bands. */
  lemma LockstepPair(e: CodecState, d: CodecState, x: int, y: int, got: int)
    requires Ready(e) && Ready(d) && SameBands(e, d) && IsInt16(x) && IsInt16(y)
    requires IsOctet(got) && got / 4 == EncodePair(e, x, y).1 / 4
    ensures SameBands(EncodePair(e, x, y).0, DecodeOctet(d, got).0)
  {
    hide LowStep, HighStep, LowCode, HighCode, DecodedLow, Synthesised, InvQuantAH;
    var line := Loaded(e.line, y, x);
    var il, ih := LowCode(e, line), HighCode(e, line);
    SplitOctets(ih * 64 + il, got);
    LowStepIgnoresLowBits(e.lo, il, got % 64);
  }

  /** Lockstep over whole runs. The decoder sees octets only, and even these with their two low bits
      replaced at will; still both of its bands end up in exactly the encoder's state. */
  lemma {:induction false} Lockstep(e: CodecState, d: CodecState, pcm: seq<int>, got: seq<int>)
    requires Ready(e) && Ready(d) && SameBands(e, d) && AllInt16(pcm)
    requires Octets(got) && SameButLowBits(EncodeRun(e, pcm).1, got)
    ensures SameBands(EncodeRun(e, pcm).0, DecodeRun(d, got).0)
    decreases |pcm|
  {
    hide Ready, EncodePair, DecodeOctet;
    if |pcm| >= 2 {
      var first := EncodePair(e, pcm[0], pcm[1]);
      var sent := EncodeRun(first.0, pcm[2..]).1;
      assert EncodeRun(e, pcm).1 == [first.1] + sent;
      assert SameButLowBits(sent, got[1..]) by {
        forall k | 0 <= k < |sent| ensures sent[k] / 4 == got[1..][k] / 4 {
          assert ([first.1] + sent)[k + 1] / 4 == got[k + 1] / 4;
        }
      }
      assert ([first.1] + sent)[0] / 4 == got[0] / 4;
      LockstepPair(e, d, pcm[0], pcm[1], got[0]);
      Lockstep(first.0, DecodeOctet(d, got[0]).0, pcm[2..], got[1..]);
    }
  }

  lemma SplitRun(e: CodecState, pcm: seq<int>, k: nat)
    requires Ready(e) && AllInt16(pcm) && 2 * k <= |pcm|
    ensures var mid := EncodeRun(e, pcm[..2 * k]);
            var end := EncodeRun(mid.0, pcm[2 * k..]);
            |mid.1| == k && EncodeRun(e, pcm) == (end.0, mid.1 + end.1)
  {
    hide Ready, EncodeRun, AllInt16, Octets;
    var first, second := pcm[..2 * k], pcm[2 * k..];
    assert AllInt16(first) && AllInt16(second) by { SlicesInt16(pcm, 2 * k); }
    EncodeInBlocks(e, first, second, k);
    assert first + second == pcm;
  }

  lemma SlicesInt16(pcm: seq<int>, n: nat)
    requires AllInt16(pcm) && n <= |pcm|
    ensures AllInt16(pcm[..n]) && AllInt16(pcm[n..])
  {
  }

  /** The encoder after k pairs has sent exactly the first k octets. */
  lemma PrefixSent(e: CodecState, pcm: seq<int>, k: nat)
    requires Ready(e) && AllInt16(pcm) && 2 * k <= |pcm|
    ensures k <= |EncodeRun(e, pcm).1| && EncodeRun(e, pcm[..2 * k]).1 == EncodeRun(e, pcm).1[..k]
  {
    hide Ready, EncodeRun;
    SplitRun(e, pcm, k);
  }

  /** Lockstep holds after every single octet, from any equal band states on; the reset states are equal. */
  lemma LockstepThroughout(e: CodecState, d: CodecState, pcm: seq<int>, got: seq<int>, k: nat)
    requires Ready(e) && Ready(d) && SameBands(e, d) && AllInt16(pcm) && Octets(got) && 2 * k <= |pcm|
    requires SameButLowBits(EncodeRun(e, pcm).1, got)
    ensures k <= |got|
    ensures SameBands(EncodeRun(e, pcm[..2 * k]).0, DecodeRun(d, got[..k]).0)
  {
    hide Ready, EncodeRun, DecodeRun;
    PrefixSent(e, pcm, k);
    Lockstep(e, d, pcm[..2 * k], got[..k]);
  }

  /** Embedded bits: two streams that differ in the two low bits of their octets only drive two
      decoders through the same band states. */
  lemma {:induction false} EmbeddedBits(d1: CodecState, d2: CodecState, s1: seq<int>, s2: seq<int>)
    requires Ready(d1) && Ready(d2) && SameBands(d1, d2) && Octets(s1) && Octets(s2) && SameButLowBits(s1, s2)
    ensures SameBands(DecodeRun(d1, s1).0, DecodeRun(d2, s2).0)
    decreases |s1|
  {
    hide Ready, DecodeOctet;
    if s1 != [] {
      EmbeddedBitsOnce(d1, d2, s1[0], s2[0]);
      assert SameButLowBits(s1[1..], s2[1..]);
      EmbeddedBits(DecodeOctet(d1, s1[0]).0, DecodeOctet(d2, s2[0]).0, s1[1..], s2[1..]);
    }
  }

  lemma EmbeddedBitsOnce(d1: CodecState, d2: CodecState, o1: int, o2: int)
    requires Ready(d1) && Ready(d2) && SameBands(d1, d2) && IsOctet(o1) && IsOctet(o2) && o1 / 4 == o2 / 4
    ensures SameBands(DecodeOctet(d1, o1).0, DecodeOctet(d2, o2).0)
  {
    hide Ready, LowStep, HighStep, DecodedLow, Synthesised, InvQuantAH, Loaded, Moved, LimitPcm, Add16;
    SplitOctets(o1, o2);
    LowStepIgnoresLowBits(d1.lo, o1 % 64, o2 % 64);
  }

  lemma SplitOctets(o1: int, o2: int)
    requires IsOctet(o1) && IsOctet(o2) && o1 / 4 == o2 / 4
    ensures o1 / 64 == o2 / 64 && o1 % 64 / 4 == o2 % 64 / 4
  {
  }

  // ---- Every run stays inside the predictor invariant ----

  lemma {:induction false} EncodeKeepsStable(e: CodecState, pcm: seq<int>)
    requires Ready(e) && Stable(e) && AllInt16(pcm)
    ensures Stable(EncodeRun(e, pcm).0)
    decreases |pcm|
  {
    hide Adapted, LowStep, HighStep, LowCode, HighCode;
    if |pcm| >= 2 {
      var line := Loaded(e.line, pcm[1], pcm[0]);
      StepsKeepAdapted(e.lo, e.hi, LowCode(e, line), HighCode(e, line));
      EncodeKeepsStable(EncodePair(e, pcm[0], pcm[1]).0, pcm[2..]);
    }
  }

  /** Any octets at all, reserved codes and line errors included, keep the decoder stable. */
  lemma {:induction false} DecodeKeepsStable(d: CodecState, octets: seq<int>)
    requires Ready(d) && Stable(d) && Octets(octets)
    ensures Stable(DecodeRun(d, octets).0)
    decreases |octets|
  {
    hide Adapted, LowStep, HighStep, DecodedLow, InvQuantAH, Synthesised;
    if octets != [] {
      StepsKeepAdapted(d.lo, d.hi, octets[0] % 64, octets[0] / 64);
      DecodeKeepsStable(DecodeOctet(d, octets[0]).0, octets[1..]);
    }
  }

  /** So from reset on, encoder and decoder never leave the invariant. */
  lemma StableFromReset(pcm: seq<int>, octets: seq<int>)
    requires AllInt16(pcm) && Octets(octets)
    ensures Stable(EncodeRun(ResetState(), pcm).0) && Stable(DecodeRun(ResetState(), octets).0)
  {
    hide Stable, Ready, EncodeRun, DecodeRun, ResetState;
    ResetIsStable();
    EncodeKeepsStable(ResetState(), pcm);
    DecodeKeepsStable(ResetState(), octets);
  }

  lemma LowStepScale(st: BandState, il: nat)
    requires Adapted(st, Low) && il < 64
    ensures LowStep(st, il).nb == LogScaleLow(il, st.nb)
  {
    hide Adapted, UpZero, UpPol1, UpPol2, ZeroSectionFrom, PoleSection, Aged, InvQuantA, LogScaleLow, ScaleLow, Add16;
  }

  /** Whatever came before, loud signals and line errors included, at most 615 small lower-band codes in a row bring
      the decoder's lower step back to its minimum. */
  lemma {:induction false} SmallCodesRestoreStep(d: CodecState, octets: seq<int>)
    requires Ready(d) && Stable(d) && Octets(octets) && 30 * |octets| >= d.lo.nb
    requires forall i | 0 <= i < |octets| :: IsSmallCode(octets[i] % 64)
    ensures DecodeRun(d, octets).0.lo.nb == 0 && DecodeRun(d, octets).0.lo.det == 32
    decreases |octets|
  {
    hide LowStep, HighStep, DecodedLow, InvQuantAH, Synthesised, IsSmallCode, LogScaleLow, ScaleLow, Loaded, Moved;
    if octets == [] {
      SmallestSteps();
    } else {
      var il := octets[0] % 64;
      StepsKeepAdapted(d.lo, d.hi, il, octets[0] / 64);
      LowStepScale(d.lo, il);
      SmallCodeShrinks(il, d.lo.nb);
      SmallCodesRestoreStep(DecodeOctet(d, octets[0]).0, octets[1..]);
    }
  }

  // ---- How close the decoder comes ----

  /** The encoder's filter line for the k-th pair. */
  function PairLine(e: CodecState, pcm: seq<int>, k: nat): (line: seq<int>)
    requires Ready(e) && AllInt16(pcm) && 2 * k + 1 < |pcm|
    ensures |line| == 24
  {
    Loaded(EncodeRun(e, pcm[..2 * k]).0.line, pcm[2 * k + 1], pcm[2 * k])
  }

  /** The encoder's lower sub-band sample for the k-th pair. */
  function SubbandInput(e: CodecState, pcm: seq<int>, k: nat): (xl: int)
    requires Ready(e) && AllInt16(pcm) && 2 * k + 1 < |pcm|
  {
    LowBand(PairLine(e, pcm, k))
  }

  /** The decoder's lower sub-band sample for the k-th octet, before it is limited. */
  function SubbandOutput(d: CodecState, octets: seq<int>, k: nat): (y: int)
    requires Ready(d) && Octets(octets) && k < |octets|
  {
    Reconstructed(DecodeRun(d, octets[..k]).0.lo, octets[k] % 64)
  }

  function CellWidth(el: int, det: int): (width: int)
    requires IsInt16(el) && IsStep(det)
  {
    Threshold(Cell(el, det), det) - Threshold(Cell(el, det) - 1, det)
  }

  /** The decoder's sample is within the width of the chosen cell of the encoder's exactly if the difference is in the
      quantiser's reach. */
  lemma ReconstructedExactly(lo: BandState, xl: int)
    requires Adapted(lo, Low) && -16384 <= xl <= 16383
    ensures var el := Sub16(xl, lo.s);
            Abs(Reconstructed(lo, QuantLow(el, lo.det)) - xl) <= CellWidth(el, lo.det) <==> InReach(el, lo.det)
  {
    hide Adapted, Threshold, InvQuantB, QuantLow, InReach, Cell;
    var el := Sub16(xl, lo.s);
    var c, dl := Cell(el, lo.det), InvQuantB(QuantLow(el, lo.det), lo.det);
    ErrorBoundExactly(el, lo.det);
    ReconstructionInCell(el, lo.det);
    ThresholdIsExact(c, lo.det);
    ThresholdIsExact(c - 1, lo.det);
    if el != xl - lo.s {
      SaturationIsOutOfReach(xl, lo.s, lo.det);
    }
  }

  /** Limiting brings a sample no further away from one within the limits. */
  lemma LimitingHelps(y: int, xl: int)
    requires -16384 <= xl <= 16383
    ensures Abs(LimitPcm(y) - xl) <= Abs(y - xl)
  {
  }

  /** The encoder's lower band and the difference it quantises at the k-th pair. */
  function BandAt(e: CodecState, pcm: seq<int>, k: nat): (lo: BandState)
    requires Ready(e) && AllInt16(pcm) && 2 * k + 1 < |pcm|
  {
    EncodeRun(e, pcm[..2 * k]).0.lo
  }

  function DifferenceAt(e: CodecState, pcm: seq<int>, k: nat): (el: int)
    requires Ready(e) && AllInt16(pcm) && 2 * k + 1 < |pcm|
    ensures IsInt16(el)
  {
    Sub16(SubbandInput(e, pcm, k), BandAt(e, pcm, k).s)
  }

  /** A decoder in step with the encoder makes of the k-th octet what the encoder's own band makes of its code. */
  lemma OutputOfPair(e: CodecState, d: CodecState, pcm: seq<int>, k: nat)
    requires Ready(e) && Ready(d) && SameBands(e, d) && AllInt16(pcm) && 2 * k + 1 < |pcm|
    ensures var octets, lo := EncodeRun(e, pcm).1, BandAt(e, pcm, k);
            && k < |octets|
            && SubbandOutput(d, octets, k) == Reconstructed(lo, QuantLow(DifferenceAt(e, pcm, k), lo.det))
  {
    hide Ready, EncodeRun, DecodeRun, EncodePair, Reconstructed, QuantLow;
    var octets := EncodeRun(e, pcm).1;
    PrefixSent(e, pcm, k);
    assert SameButLowBits(EncodeRun(e, pcm[..2 * k]).1, octets[..k]);
    Lockstep(e, d, pcm[..2 * k], octets[..k]);
    CodeOfPair(e, pcm, k);
  }

  /** End to end, at every pair and no matter what came before: the decoder's lower sub-band sample is within one cell
      width of the encoder's exactly if the difference is in the quantiser's reach, which it is unless the quantiser
      is overloaded; the limited sample is then no further away. */
  lemma DecoderTracksEncoder(e: CodecState, d: CodecState, pcm: seq<int>, k: nat)
    requires Ready(e) && Stable(e) && Ready(d) && SameBands(e, d) && AllInt16(pcm) && 2 * k + 1 < |pcm|
    ensures k < |EncodeRun(e, pcm).1| && IsStep(BandAt(e, pcm, k).det)
    ensures var det, el, xl := BandAt(e, pcm, k).det, DifferenceAt(e, pcm, k), SubbandInput(e, pcm, k);
            var y := SubbandOutput(d, EncodeRun(e, pcm).1, k);
            && (Abs(y - xl) <= CellWidth(el, det) <==> InReach(el, det))
            && (!Overload(el, det) ==> InReach(el, det))
            && (InReach(el, det) ==> Abs(LimitPcm(y) - xl) <= CellWidth(el, det))
  {
    hide Ready, Stable, EncodeRun, DecodeRun, EncodePair, Reconstructed, InReach, CellWidth, QuantLow, Overload;
    OutputOfPair(e, d, pcm, k);
    EncodeKeepsStable(e, pcm[..2 * k]);
    StepInRange(EncodeRun(e, pcm[..2 * k]).0);
    ReconstructedExactly(BandAt(e, pcm, k), SubbandInput(e, pcm, k));
    LimitingHelps(SubbandOutput(d, EncodeRun(e, pcm).1, k), SubbandInput(e, pcm, k));
    if !Overload(DifferenceAt(e, pcm, k), BandAt(e, pcm, k).det) {
      InReachUnlessOverload(DifferenceAt(e, pcm, k), BandAt(e, pcm, k).det);
    }
  }

  lemma StepInRange(e: CodecState)
    requires Stable(e)
    ensures Adapted(e.lo, Low) && IsStep(e.lo.det)
  {
  }

  lemma FirstOctet(e: CodecState, pcm: seq<int>)
    requires Ready(e) && AllInt16(pcm) && |pcm| >= 2
    ensures IsInt16(pcm[0]) && IsInt16(pcm[1])
    ensures 0 < |EncodeRun(e, pcm).1| && EncodeRun(e, pcm).1[0] == EncodePair(e, pcm[0], pcm[1]).1
    ensures EncodePair(e, pcm[0], pcm[1]).1 % 64 == LowCode(e, Loaded(e.line, pcm[1], pcm[0]))
  {
    hide EncodePair, EncodeRun, Ready, LowCode, Loaded;
    EncodeRunUnfolds(e, pcm);
    LowCodeSent(e, pcm[0], pcm[1]);
  }

  lemma LowCodeSent(e: CodecState, x: int, y: int)
    requires Ready(e) && IsInt16(x) && IsInt16(y)
    ensures EncodePair(e, x, y).1 % 64 == LowCode(e, Loaded(e.line, y, x))
  {
    hide LowCode, HighCode, LowStep, HighStep, Loaded, Moved;
  }

  /** The k-th octet carries the code of the k-th difference. */
  lemma CodeOfPair(e: CodecState, pcm: seq<int>, k: nat)
    requires Ready(e) && AllInt16(pcm) && 2 * k + 1 < |pcm|
    ensures var mid, octets := EncodeRun(e, pcm[..2 * k]).0, EncodeRun(e, pcm).1;
            && k < |octets|
            && octets[k] % 64 == QuantLow(Sub16(SubbandInput(e, pcm, k), mid.lo.s), mid.lo.det)
            && octets[k] == EncodePair(mid, pcm[2 * k], pcm[2 * k + 1]).1
  {
    hide Ready, QuantLow, LowStep, HighStep, HighCode;
    SplitRun(e, pcm, k);
    FirstOctet(EncodeRun(e, pcm[..2 * k]).0, pcm[2 * k..]);
  }

  /** Codes 0 to 3 of the lower band are reserved: no octet of any encoding carries one. */
  lemma ReservedCodesUnused(e: CodecState, pcm: seq<int>, k: nat)
    requires Ready(e) && AllInt16(pcm) && 2 * k + 1 < |pcm|
    ensures k < |EncodeRun(e, pcm).1| && EncodeRun(e, pcm).1[k] % 64 >= 4
  {
    hide Ready, EncodeRun, QuantLow;
    CodeOfPair(e, pcm, k);
  }

  // ---- How close the predictors' own reconstruction comes ----

  /** A step stores the reconstruction from the feedback as the newest entry of the delay line. */
  lemma StoredReconstruction(lo: BandState, il: nat)
    requires lo.Shaped() && il < 64
    ensures LowStep(lo, il).r[1] == Add16(lo.s, InvQuantA(il, lo.det))
    ensures LowStep(lo, il).d[1] == InvQuantA(il, lo.det)
  {
    hide InvQuantA, LogScaleLow, ScaleLow, UpZero, UpPol1, UpPol2, ZeroSectionFrom, PoleSection, Add16;
  }

  /** Without overload it is within the width of the chosen group of cells of the encoder's sample. */
  lemma FeedbackTracks(lo: BandState, xl: int)
    requires Adapted(lo, Low) && -16384 <= xl <= 16383 && !Overload(Sub16(xl, lo.s), lo.det)
    ensures var el := Sub16(xl, lo.s);
            Abs(LowStep(lo, QuantLow(el, lo.det)).r[1] - xl) <= CoarseWidth(el, lo.det)
  {
    hide Adapted, LowStep, InvQuantA, QuantLow, Overload, CoarseWidth;
    var el := Sub16(xl, lo.s);
    StoredReconstruction(lo, QuantLow(el, lo.det));
    FeedbackError(el, lo.det);
    SaturationIsOverload(xl, lo.s, lo.det);
  }

  /** What the code of a pair makes of both bands. */
  lemma BandsAfterPair(e: CodecState, x: int, y: int)
    requires Ready(e) && IsInt16(x) && IsInt16(y)
    ensures var line := Loaded(e.line, y, x);
            && EncodePair(e, x, y).0.lo == LowStep(e.lo, QuantLow(Sub16(LowBand(line), e.lo.s), e.lo.det))
            && EncodePair(e, x, y).0.hi == HighStep(e.hi, QuantHigh(Sub16(HighBand(line), e.hi.s), e.hi.det))
            && EncodePair(e, x, y).1 / 64 == QuantHigh(Sub16(HighBand(line), e.hi.s), e.hi.det)
  {
    hide LowStep, HighStep, QuantLow, QuantHigh, LowBand, HighBand, Loaded, Moved;
  }

  /** How the steps of both bands follow the sub-bands, pair by pair: the lower logarithm moves by the entry of the
      group of cells that the difference lies in, the upper one up or down by the side of the threshold. */
  lemma StepsAfterPair(e: CodecState, x: int, y: int)
    requires Ready(e) && Stable(e) && IsInt16(x) && IsInt16(y)
    ensures var line, e' := Loaded(e.line, y, x), EncodePair(e, x, y).0;
            var el, eh := Sub16(LowBand(line), e.lo.s), Sub16(HighBand(line), e.hi.s);
            && e'.lo.nb == Clamp(e.lo.nb * 127 / 128 + Wl(Coarse(Cell(el, e.lo.det))), 18432)
            && e'.hi.nb == Clamp(e.hi.nb * 127 / 128
                                 + if Magnitude(eh) >= UpperThreshold(e.hi.det) then 798 else -214, 22528)
  {
    hide *;
    BothAdapted(e);
    BandsAfterPair(e, x, y);
    var line := Loaded(e.line, y, x);
    LowStepAdapts(e.lo, Sub16(LowBand(line), e.lo.s));
    HighStepAdapts(e.hi, Sub16(HighBand(line), e.hi.s));
  }

  lemma BothAdapted(e: CodecState)
    requires Stable(e)
    ensures Adapted(e.lo, Low) && Adapted(e.hi, High)
  {
  }

  lemma LowStepAdapts(lo: BandState, el: int)
    requires Adapted(lo, Low) && IsInt16(el)
    ensures LowStep(lo, QuantLow(el, lo.det)).nb == Clamp(lo.nb * 127 / 128 + Wl(Coarse(Cell(el, lo.det))), 18432)
  {
    hide *;
    LowStepLog(lo, QuantLow(el, lo.det));
    LogInRange(lo, Low);
    var c := Cell(el, lo.det);
    CodeOfCell(el, lo.det);
    CoarseCode(el < 0, c);
    LogScaleLaw(CodeOf(el < 0, c), 0, lo.nb);
  }

  lemma HighStepAdapts(hi: BandState, eh: int)
    requires Adapted(hi, High) && IsInt16(eh)
    ensures HighStep(hi, QuantHigh(eh, hi.det)).nb
            == Clamp(hi.nb * 127 / 128 + if Magnitude(eh) >= UpperThreshold(hi.det) then 798 else -214, 22528)
  {
    hide *;
    HighStepLog(hi, QuantHigh(eh, hi.det));
    LogInRange(hi, High);
    UpperStepFollows(eh, hi.det, hi.nb);
  }

  lemma LowStepLog(lo: BandState, il: nat)
    requires lo.Shaped() && il < 64
    ensures LowStep(lo, il).nb == LogScaleLow(il, lo.nb)
  {
    hide InvQuantA, LogScaleLow, ScaleLow, UpZero, UpPol1, UpPol2, ZeroSectionFrom, PoleSection, Aged;
  }

  lemma HighStepLog(hi: BandState, ih: nat)
    requires hi.Shaped() && ih < 4
    ensures HighStep(hi, ih).nb == LogScaleHigh(ih, hi.nb)
  {
    hide InvQuantAH, LogScaleHigh, ScaleHigh, UpZero, UpPol1, UpPol2, ZeroSectionFrom, PoleSection, Aged;
  }

  lemma LogInRange(band: BandState, side: Side)
    requires Adapted(band, side)
    ensures 0 <= band.nb <= if side.Low? then 18432 else 22528
  {
    hide ScaleLow, ScaleHigh;
  }

  lemma CodeOfCell(el: int, det: int)
    requires IsInt16(el)
    ensures QuantLow(el, det) == CodeOf(el < 0, Cell(el, det))
  {
    hide CodeOf, Cell;
  }

  lemma RunOfPair(st: CodecState, x: int, y: int)
    requires Ready(st) && IsInt16(x) && IsInt16(y)
    ensures AllInt16([x, y]) && EncodeRun(st, [x, y]).0 == EncodePair(st, x, y).0
  {
    hide Ready, EncodePair;
    assert [x, y][2..] == [];
  }

  /** The bands of the encoder and of the decoder behind the k-th octet. */
  function BandAfter(e: CodecState, pcm: seq<int>, k: nat): (lo: BandState)
    requires Ready(e) && AllInt16(pcm) && 2 * k + 1 < |pcm|
    ensures lo.Shaped()
  {
    EncodeRun(e, pcm[..2 * k] + [pcm[2 * k], pcm[2 * k + 1]]).0.lo
  }

  function DecoderBandAfter(d: CodecState, octets: seq<int>, k: nat): (lo: BandState)
    requires Ready(d) && Octets(octets) && k < |octets|
    ensures lo.Shaped()
  {
    DecodeRun(d, octets[..k + 1]).0.lo
  }

  /** The code of the k-th pair takes the band from one to the next. */
  lemma OnePairMore(e: CodecState, pcm: seq<int>, k: nat)
    requires Ready(e) && AllInt16(pcm) && 2 * k + 1 < |pcm|
    ensures BandAfter(e, pcm, k)
            == LowStep(BandAt(e, pcm, k), QuantLow(DifferenceAt(e, pcm, k), BandAt(e, pcm, k).det))
  {
    hide Ready, EncodeRun, EncodePair, LowStep, HighStep, QuantLow, QuantHigh, LowBand, HighBand, Loaded;
    var first, x, y := pcm[..2 * k], pcm[2 * k], pcm[2 * k + 1];
    var mid := EncodeRun(e, first).0;
    RunOfPair(mid, x, y);
    EncodeInBlocks(e, first, [x, y], k);
    BandsAfterPair(mid, x, y);
  }

  /** Both ends have it. */
  lemma SameBandAfter(e: CodecState, d: CodecState, pcm: seq<int>, k: nat)
    requires Ready(e) && Ready(d) && SameBands(e, d) && AllInt16(pcm) && 2 * k + 1 < |pcm|
    ensures k < |EncodeRun(e, pcm).1| && DecoderBandAfter(d, EncodeRun(e, pcm).1, k) == BandAfter(e, pcm, k)
  {
    hide Ready, EncodeRun, DecodeRun;
    PrefixSent(e, pcm, k + 1);
    UpToPair(pcm, k);
    Lockstep(e, d, pcm[..2 * (k + 1)], EncodeRun(e, pcm).1[..k + 1]);
  }

  lemma UpToPair(pcm: seq<int>, k: nat)
    requires 2 * k + 1 < |pcm|
    ensures pcm[..2 * (k + 1)] == pcm[..2 * k] + [pcm[2 * k], pcm[2 * k + 1]]
  {
  }

  /** End to end, at every pair: unless the quantiser is overloaded, the newest reconstructed sample in the lower band
      of both ends, from which both predict, is within the width of the chosen group of cells of the sub-band sample. */
  lemma PredictorsTrackInput(e: CodecState, d: CodecState, pcm: seq<int>, k: nat)
    requires Ready(e) && Stable(e) && Ready(d) && SameBands(e, d) && AllInt16(pcm) && 2 * k + 1 < |pcm|
    requires !Overload(DifferenceAt(e, pcm, k), BandAt(e, pcm, k).det)
    ensures k < |EncodeRun(e, pcm).1| && DecoderBandAfter(d, EncodeRun(e, pcm).1, k) == BandAfter(e, pcm, k)
    ensures Abs(BandAfter(e, pcm, k).r[1] - SubbandInput(e, pcm, k))
            <= CoarseWidth(DifferenceAt(e, pcm, k), BandAt(e, pcm, k).det)
  {
    hide Ready, Stable, EncodeRun, DecodeRun, CoarseWidth, QuantLow, Overload, LowStep, BandAfter, DecoderBandAfter;
    SameBandAfter(e, d, pcm, k);
    OnePairMore(e, pcm, k);
    EncodeKeepsStable(e, pcm[..2 * k]);
    StepInRange(EncodeRun(e, pcm[..2 * k]).0);
    FeedbackTracks(BandAt(e, pcm, k), SubbandInput(e, pcm, k));
  }

  // ---- The upper sub-band ----

  /** The encoder's upper sub-band sample for the k-th pair, and the difference it quantises. */
  function HighInput(e: CodecState, pcm: seq<int>, k: nat): (xh: int)
    requires Ready(e) && AllInt16(pcm) && 2 * k + 1 < |pcm|
  {
    HighBand(PairLine(e, pcm, k))
  }

  function HighBandAt(e: CodecState, pcm: seq<int>, k: nat): (hi: BandState)
    requires Ready(e) && AllInt16(pcm) && 2 * k + 1 < |pcm|
  {
    EncodeRun(e, pcm[..2 * k]).0.hi
  }

  function HighDifferenceAt(e: CodecState, pcm: seq<int>, k: nat): (eh: int)
    requires Ready(e) && AllInt16(pcm) && 2 * k + 1 < |pcm|
    ensures IsInt16(eh)
  {
    Sub16(HighInput(e, pcm, k), HighBandAt(e, pcm, k).s)
  }

  /** The decoder's upper sub-band sample for the k-th octet, before it is limited. */
  function HighOutput(d: CodecState, octets: seq<int>, k: nat): (y: int)
    requires Ready(d) && Octets(octets) && k < |octets|
  {
    ReconstructedHigh(DecodeRun(d, octets[..k]).0.hi, octets[k] / 64)
  }

  lemma ReconstructedHighExactly(hi: BandState, xh: int)
    requires Adapted(hi, High) && -16384 <= xh <= 16383
    ensures var eh := Sub16(xh, hi.s);
            Abs(ReconstructedHigh(hi, QuantHigh(eh, hi.det)) - xh) <= UpperThreshold(hi.det)
            <==> UpperInReach(eh, hi.det)
  {
    UpperStepIsFours(hi);
    hide Adapted, InvQuantAH, QuantHigh, UpperInReach, UpperThreshold;
    var eh := Sub16(xh, hi.s);
    UpperErrorExactly(eh, hi.det);
    UpperReconstruction(eh, hi.det);
    if eh != xh - hi.s {
      UpperSaturation(xh, hi.s, hi.det);
    }
  }

  lemma UpperStepIsFours(hi: BandState)
    requires Adapted(hi, High)
    ensures IsStep(hi.det) && hi.det % 4 == 0
  {
    hide Ila;
  }

  /** A decoder in step makes of the k-th octet's upper code what the encoder's own band makes of it. */
  lemma HighOutputOfPair(e: CodecState, d: CodecState, pcm: seq<int>, k: nat)
    requires Ready(e) && Ready(d) && SameBands(e, d) && AllInt16(pcm) && 2 * k + 1 < |pcm|
    ensures var octets, hi := EncodeRun(e, pcm).1, HighBandAt(e, pcm, k);
            && k < |octets| && octets[k] / 64 == QuantHigh(HighDifferenceAt(e, pcm, k), hi.det)
            && HighOutput(d, octets, k) == ReconstructedHigh(hi, QuantHigh(HighDifferenceAt(e, pcm, k), hi.det))
  {
    hide Ready, EncodeRun, DecodeRun, EncodePair, ReconstructedHigh, QuantHigh, QuantLow, LowStep, HighStep, Loaded;
    hide LowBand, HighBand;
    PrefixSent(e, pcm, k);
    Lockstep(e, d, pcm[..2 * k], EncodeRun(e, pcm).1[..k]);
    CodeOfPair(e, pcm, k);
    BandsAfterPair(EncodeRun(e, pcm[..2 * k]).0, pcm[2 * k], pcm[2 * k + 1]);
  }

  /** The upper band end to end: the decoder's sample is within the upper threshold of the encoder's exactly if the
      difference is in the reach of the two-bit quantiser. */
  lemma DecoderTracksUpperBand(e: CodecState, d: CodecState, pcm: seq<int>, k: nat)
    requires Ready(e) && Stable(e) && Ready(d) && SameBands(e, d) && AllInt16(pcm) && 2 * k + 1 < |pcm|
    ensures k < |EncodeRun(e, pcm).1|
    ensures var det, eh, xh := HighBandAt(e, pcm, k).det, HighDifferenceAt(e, pcm, k), HighInput(e, pcm, k);
            var y := HighOutput(d, EncodeRun(e, pcm).1, k);
            && (Abs(y - xh) <= UpperThreshold(det) <==> UpperInReach(eh, det))
            && (UpperInReach(eh, det) ==> Abs(LimitPcm(y) - xh) <= UpperThreshold(det))
  {
    hide Ready, Stable, EncodeRun, DecodeRun, EncodePair, ReconstructedHigh, UpperInReach, UpperThreshold, QuantHigh;
    HighOutputOfPair(e, d, pcm, k);
    EncodeKeepsStable(e, pcm[..2 * k]);
    HighIsAdapted(EncodeRun(e, pcm[..2 * k]).0);
    ReconstructedHighExactly(HighBandAt(e, pcm, k), HighInput(e, pcm, k));
    LimitingHelps(HighOutput(d, EncodeRun(e, pcm).1, k), HighInput(e, pcm, k));
  }

  lemma HighIsAdapted(e: CodecState)
    requires Stable(e)
    ensures Adapted(e.hi, High)
  {
  }

  // ---- The analysis filter bank is a pair of FIR filters over the whole signal ----

  /** The signal at time t; silence before it starts. */
  function Past(x: seq<int>, t: int): (v: int) {
    if 0 <= t < |x| then x[t] else 0
  }

  /** Convolution of the first n taps with the signal, ending at time t. */
  function Convolve(mirror: bool, n: nat, x: seq<int>, t: int): (sum: int)
    requires n <= 24
  {
    if n == 0 then 0 else Convolve(mirror, n - 1, x, t) + Tap(mirror, n - 1) * Past(x, t - (n - 1))
  }

  predicate LineHolds(line: seq<int>, history: seq<int>) {
    |line| == 24 && forall k | 2 <= k < 24 :: line[k] == Past(history, |history| + 1 - k)
  }

  lemma LoadedHolds(line: seq<int>, history: seq<int>, x: int, y: int)
    requires LineHolds(line, history)
    ensures var h, loaded := history + [x, y], Loaded(line, y, x);
            && (forall k | 0 <= k < 24 :: loaded[k] == Past(h, |h| - 1 - k))
            && LineHolds(Moved(loaded), h)
  {
  }

  lemma {:induction false} FirIsConvolution(mirror: bool, n: nat, line: seq<int>, x: seq<int>, t: int)
    requires n <= |line| == 24 && forall k | 0 <= k < 24 :: line[k] == Past(x, t - k)
    ensures Fir(mirror, n, line) == Convolve(mirror, n, x, t)
  {
    hide Tap, Past;
    if n > 0 {
      FirIsConvolution(mirror, n - 1, line, x, t);
    }
  }

  lemma {:induction false} LineAfterRun(e: CodecState, history: seq<int>, pcm: seq<int>, pairs: nat)
    requires Ready(e) && AllInt16(pcm) && |pcm| == 2 * pairs && LineHolds(e.line, history)
    ensures LineHolds(EncodeRun(e, pcm).0.line, history + pcm)
    decreases |pcm|
  {
    hide Ready, LineHolds, LowStep, HighStep, LowCode, HighCode, Loaded, Moved;
    if pcm == [] {
      assert history + pcm == history;
    } else {
      LoadedHolds(e.line, history, pcm[0], pcm[1]);
      LineAfterRun(EncodePair(e, pcm[0], pcm[1]).0, history + [pcm[0], pcm[1]], pcm[2..], pairs - 1);
      assert history + [pcm[0], pcm[1]] + pcm[2..] == history + pcm;
    }
  }

  /** From reset on, the sub-bands are the exact 24-tap convolutions of the whole signal with the prototype and
      with its mirror image, taken at every second sample, then scaled and limited: nothing saturates on the way. */
  lemma AnalysisIsConvolution(pcm: seq<int>, k: nat)
    requires AllInt16(pcm) && 2 * k + 1 < |pcm|
    ensures SubbandInput(ResetState(), pcm, k) == LimitPcm(Convolve(false, 24, pcm, 2 * k + 1) / 32768)
    ensures HighBand(PairLine(ResetState(), pcm, k)) == LimitPcm(Convolve(true, 24, pcm, 2 * k + 1) / 32768)
  {
    hide Ready, EncodeRun, LineHolds, Loaded, Moved, Fir, Convolve;
    var before, x, y := pcm[..2 * k], pcm[2 * k], pcm[2 * k + 1];
    assert LineHolds(ResetState().line, []) by { ZeroLineHolds(); }
    LineAfterRun(ResetState(), [], before, k);
    assert [] + before == before;
    var line := EncodeRun(ResetState(), before).0.line;
    LoadedHolds(line, before, x, y);
    forall mirror: bool
      ensures Fir(mirror, 24, PairLine(ResetState(), pcm, k)) == Convolve(mirror, 24, pcm, 2 * k + 1)
    {
      FirIsConvolution(mirror, 24, Loaded(line, y, x), before + [x, y], 2 * k + 1);
      ConvolutionIsCausal(mirror, 24, before + [x, y], pcm, 2 * k + 1);
    }
  }

  lemma ZeroLineHolds()
    ensures LineHolds(Zeros(24), [])
  {
  }

  lemma {:induction false} ConvolutionIsCausal(mirror: bool, n: nat, x: seq<int>, z: seq<int>, t: int)
    requires n <= 24 && t == |x| - 1 && x <= z
    ensures Convolve(mirror, n, x, t) == Convolve(mirror, n, z, t)
  {
    hide Tap;
    if n > 0 {
      ConvolutionIsCausal(mirror, n - 1, x, z, t);
      assert Past(x, t - (n - 1)) == Past(z, t - (n - 1));
    }
  }

  // ---- A signal that overloads the quantiser ----

  /** Full-scale alternation, from reset on: four samples, two octets. */
  const ALTERNATION: seq<int> := [-32768, 32767, -32768, 32767]

  lemma {:induction false} ConvolutionEnds(mirror: bool, n: nat, m: nat, x: seq<int>, t: nat)
    requires t + 1 == m <= n <= 24
    ensures Convolve(mirror, n, x, t) == Convolve(mirror, m, x, t)
  {
    hide Tap;
    if n > m {
      ConvolutionEnds(mirror, n - 1, m, x, t);
    }
  }

  lemma FirstTaps()
    ensures Tap(false, 0) == 6 && Tap(false, 1) == -22 && Tap(false, 2) == -22 && Tap(false, 3) == 106
  {
  }

  lemma AlternationConvolved()
    ensures Convolve(false, 2, ALTERNATION, 1) == 917498 && Convolve(false, 4, ALTERNATION, 3) == -3276784
  {
    hide Tap;
    var x := ALTERNATION;
    FirstTaps();
    assert Convolve(false, 1, x, 1) == 6 * 32767;
    assert Convolve(false, 1, x, 3) == 6 * 32767;
    assert Convolve(false, 2, x, 3) == 917498;
    assert Convolve(false, 3, x, 3) == 196624;
  }

  /** The sub-band samples of its two pairs. */
  lemma AlternationFiltered()
    ensures SubbandInput(ResetState(), ALTERNATION, 0) == 27 && SubbandInput(ResetState(), ALTERNATION, 1) == -100
  {
    hide Convolve, EncodeRun, LowBand, PairLine, ResetState;
    AnalysisIsConvolution(ALTERNATION, 0);
    AnalysisIsConvolution(ALTERNATION, 1);
    ConvolutionEnds(false, 24, 2, ALTERNATION, 1);
    ConvolutionEnds(false, 24, 4, ALTERNATION, 3);
    AlternationConvolved();
  }

  /** A difference beyond the outermost threshold gets the outermost code. */
  lemma OutermostCode(el: int, det: int)
    requires IsInt16(el) && IsStep(det) && Magnitude(el) >= 25600 * det / 32768
    ensures Cell(el, det) == 30 && QuantLow(el, det) == CodeOf(el < 0, 30)
    ensures CodeOf(false, 30) == 32
  {
    hide Threshold;
    CellBounds(el, det);
    ThresholdsGrow(Cell(el, det), det);
    ThresholdIsExact(30, det);
  }

  /** The lower band after one octet from reset: the first difference was too large for the reset step. */
  lemma ResetBandFed()
    ensures var lo := LowStep(ResetBand(32), 32); lo.s == 0 && lo.det == 88
  {
    var lo := ResetBand(32);
    assert InvQuantA(32, 32) == 19;
    assert LogScaleLow(32, 0) == 3042 && ScaleLow(3042) == 88 by { FirstScale(); }
    FedPrediction(lo.(d := lo.d[0 := 19], nb := 3042, det := 88, p := lo.p[0 := 19], r := lo.r[0 := 19]));
  }

  lemma FirstScale()
    ensures LogScaleLow(32, 0) == 3042 && ScaleLow(3042) == 88
  {
    hide Ila;
    assert Ila(111) == 21 by { FirstScaleEntry(); }
    assert (3042 / 64) % 512 + 64 == 111;
    assert Ril4(8) == 7 && Wl(7) == 3042;
  }

  lemma FirstScaleEntry()
    ensures Ila(111) == 21
  {
    assert 111 / 32 == 3 && 111 % 32 == 15;
    assert Octave(3, 15) == 21;
  }

  lemma FedPrediction(st: BandState)
    requires st.a == Zeros(3) && st.b == Zeros(7) && st.d == Zeros(7)[0 := 19]
    requires st.p == Zeros(3)[0 := 19] && st.r == Zeros(3)[0 := 19]
    ensures Predict(st).s == 0 && Predict(st).det == st.det
  {
    hide ZeroSectionFrom, ZeroUpdate, UpPol1, UpPol2, PoleSection, Add16;
    var d, b, r := Aged(st.d), UpZero(st.d, st.b), Aged(st.r);
    assert d == [19, 19, 0, 0, 0, 0, 0] && r == [19, 19, 0];
    assert b[1] == ZeroUpdate(19, 0, 0);
    FirstZeroUpdate();
    NoZeroSection(d, b);
    FirstPoles(st.a, st.p, r);
    SmallProducts();
  }

  lemma FirstZeroUpdate()
    ensures ZeroUpdate(19, 0, 0) == 128
  {
  }

  lemma FirstPoles(a: seq<int>, p: seq<int>, r: seq<int>)
    requires |a| == |p| == |r| == 3 && a[1] == a[2] == 0 && p[0] == 19 && p[1] == p[2] == 0
    requires r[1] == 19 && r[2] == 0
    ensures UpPol2(a, p) == 128 && UpPol1(a[2 := 128], p) == 192
    ensures PoleSection(a[2 := 128][1 := 192], r) == 0
  {
    hide UpPol1, UpPol2, Mult16, Add16;
    SecondPoleUpdateExact(a, p);
    FirstPoleUpdateExact(a[2 := 128], p);
    SmallProducts();
  }

  lemma SmallProducts()
    ensures Add16(19, 19) == 38 && Add16(0, 0) == 0
    ensures Mult16(192, 38) == 0 && Mult16(128, 0) == 0 && Mult16(38, 128) == 0
  {
    assert 192 * 38 == 7296 && 38 * 128 == 4864;
  }

  lemma NoZeroSection(d: seq<int>, b: seq<int>)
    requires |d| == |b| == 7 && d == [19, 19, 0, 0, 0, 0, 0] && b[1] == 128
    ensures ZeroSectionFrom(6, d, b, 0) == 0
  {
    hide Mult16, Add16;
    SmallProducts();
    assert ZeroSectionFrom(1, d, b, 0) == 0;
    NothingFrom(d, b, 2);
    NothingFrom(d, b, 3);
    NothingFrom(d, b, 4);
    NothingFrom(d, b, 5);
    NothingFrom(d, b, 6);
  }

  lemma NothingFrom(d: seq<int>, b: seq<int>, i: nat)
    requires |d| == |b| == 7 && 2 <= i <= 6 && d[i] == 0
    ensures ZeroSectionFrom(i, d, b, 0) == ZeroSectionFrom(i - 1, d, b, 0)
  {
    hide Mult16;
    assert Mult16(0, b[i]) == 0 by { NoProduct(b[i]); }
  }

  lemma NoProduct(b: int)
    ensures Mult16(0, b) == 0
  {
    assert 0 * b == 0;
  }

  /** The encoder after the first pair. */
  lemma AlternationFirstPair()
    ensures BandAt(ResetState(), ALTERNATION, 0) == ResetBand(32)
    ensures BandAt(ResetState(), ALTERNATION, 1) == LowStep(ResetBand(32), 32)
  {
    hide EncodePair, EncodeRun, Ready, LowStep, HighStep, LowBand, QuantLow, ResetBand, Loaded;
    var e, x := ResetState(), ALTERNATION;
    assert x[..0] == [] && x[..2] == [x[0], x[1]] && x[..2][2..] == [];
    EncodeRunUnfolds(e, x[..0]);
    EncodeRunUnfolds(e, x[..2]);
    EncodeRunUnfolds(EncodePair(e, x[0], x[1]).0, []);
    LowBandMoves(e, x[0], x[1]);
    AlternationFiltered();
    assert ResetBand(32).s == 0 && ResetBand(32).det == 32 by { ResetSample(); }
    assert QuantLow(27, 32) == 32 by { OutermostCode(27, 32); }
  }

  lemma ResetSample()
    ensures ResetBand(32).s == 0 && ResetBand(32).det == 32
  {
  }

  lemma LowBandMoves(e: CodecState, x: int, y: int)
    requires Ready(e) && IsInt16(x) && IsInt16(y)
    ensures EncodePair(e, x, y).0.lo
            == LowStep(e.lo, QuantLow(Sub16(LowBand(Loaded(e.line, y, x)), e.lo.s), e.lo.det))
  {
    hide LowStep, HighStep, HighCode, QuantLow, LowBand, Loaded, Moved;
  }

  /** The bound really fails on audio: on the second pair of a full-scale alternation the decoder, in step with the
      encoder, is off by 33 where the chosen cell is 6 wide. */
  lemma OverloadBreaksTheBound()
    ensures var e, x := ResetState(), ALTERNATION;
            var lo, el, octets := BandAt(e, x, 1), DifferenceAt(e, x, 1), EncodeRun(e, x).1;
            && AllInt16(x) && |octets| == 2 && Overload(el, lo.det) && !InReach(el, lo.det)
            && SubbandInput(e, x, 1) == -100 && SubbandOutput(e, octets, 1) == -67
            && CellWidth(el, lo.det) == 6
  {
    hide EncodeRun, DecodeRun, Ready, LowStep, Threshold, QuantLow, InvQuantB, ResetBand, ResetState, CodeOf, Cell;
    hide InReach;
    var e, x := ResetState(), ALTERNATION;
    AlternationFiltered();
    AlternationFirstPair();
    ResetBandFed();
    OutputOfPair(e, e, x, 1);
    OutermostCode(-100, 88);
    ThresholdIsExact(30, 88);
    ThresholdIsExact(29, 88);
    assert Threshold(29, 88) == 62 by { assert Q6(29) == 2919; }
    DecodedLevel(true, 30, 88);
    assert Oq6(30) == 3101;
    ErrorBoundExactly(-100, 88);
  }

  // ---- The codec objects ----

  lemma EncodeRunUnfolds(st: CodecState, pcm: seq<int>)
    requires Ready(st) && AllInt16(pcm)
    ensures if |pcm| < 2 then EncodeRun(st, pcm) == (st, [])
            else var first := EncodePair(st, pcm[0], pcm[1]);
                 var rest := EncodeRun(first.0, pcm[2..]);
                 EncodeRun(st, pcm) == (rest.0, [first.1] + rest.1)
  {
    hide EncodePair;
  }

  lemma DecodeRunUnfolds(st: CodecState, octets: seq<int>)
    requires Ready(st) && Octets(octets)
    ensures if octets == [] then DecodeRun(st, octets) == (st, [])
            else var first := DecodeOctet(st, octets[0]);
                 var rest := DecodeRun(first.0, octets[1..]);
                 DecodeRun(st, octets) == (rest.0, [first.1, first.2] + rest.1)
  {
    hide DecodeOctet;
  }

  /** The upper band's reconstructed sample is still at hand after the update. */
  lemma ReconstructedSampleStays(hi: BandState, ih: nat)
    requires hi.Shaped() && ih < 4
    ensures HighStep(hi, ih).r[0] == Add16(hi.s, InvQuantAH(ih, hi.det))
  {
    hide InvQuantAH, LogScaleHigh, ScaleHigh, UpZero, UpPol1, UpPol2, ZeroSectionFrom, PoleSection, Add16;
  }

  class Codec {
    const lo: Band
    const hi: Band
    const qmf: array<int>
    ghost const Repr: set<object>

    ghost predicate Valid()
      reads this, lo, hi
    {
      && lo.Valid() && hi.Valid() && qmf.Length == 24
      && lo.Repr !! hi.Repr && this !in lo.Repr + hi.Repr && qmf !in lo.Repr + hi.Repr
      && Repr == {this, qmf} + lo.Repr + hi.Repr
    }

    ghost function State(): (st: CodecState)
      requires Valid()
      reads this, qmf, lo, hi, lo.Repr, hi.Repr
    {
      CodecState(lo.State(), hi.State(), qmf[..])
    }

    constructor ()
      ensures Valid() && fresh(Repr)
      ensures State() == ResetState()
    {
      var low := new Band(32);
      var high := new Band(8);
      var line := new int[24](_ => 0);
      lo, hi, qmf := low, high, line;
      Repr := {this, line} + low.Repr + high.Repr;
    }

    /** g722_encode: two samples in, one octet out. */
    method Encode(pcm: seq<int>) returns (out: seq<int>)
      requires Valid() && Ready(State()) && AllInt16(pcm)
      modifies Repr
      ensures Valid() && (State(), out) == EncodeRun(old(State()), pcm)
    {
      hide Ready, EncodeRun, EncodePair;
      out := [];
      var i := 0;
      ghost var all := EncodeRun(State(), pcm);
      assert pcm[0..] == pcm && [] + all.1 == all.1;
      while i + 1 < |pcm|
        invariant 0 <= i <= |pcm| && Valid() && Ready(State())
        invariant var rest := EncodeRun(State(), pcm[i..]);
                  EncodeRun(old(State()), pcm) == (rest.0, out + rest.1)
      {
        EncodeRunUnfolds(State(), pcm[i..]);
        var octet := EncodeNext(pcm[i], pcm[i + 1]);
        assert pcm[i..][2..] == pcm[i + 2..];
        ghost var rest := EncodeRun(State(), pcm[i + 2..]);
        Regroup(out, [octet], rest.1);
        out := out + [octet];
        i := i + 2;
      }
      EncodeRunUnfolds(State(), pcm[i..]);
      assert out + [] == out;
    }

    method EncodeNext(x: int, y: int) returns (octet: int)
      requires Valid() && Ready(State()) && IsInt16(x) && IsInt16(y)
      modifies Repr
      ensures Valid() && (State(), octet) == EncodePair(old(State()), x, y)
    {
      hide LowStep, HighStep, QuantLow, QuantHigh, LowBand, HighBand, Sub16, Moved, Loaded;
      var xl, xh := QmfAnalysis(qmf, y, x);
      var el := Sub16(xl, lo.s);
      var il := Quantl(el, lo.det);
      lo.FeedLow(il);
      var eh := Sub16(xh, hi.s);
      var ih := QuantHigh(eh, hi.det);
      hi.FeedHigh(ih);
      octet := (ih * 64 + il) % 256;
    }

    /** g722_decode: one octet in, two samples out. */
    method DecodeNext(octet: int) returns (x1: int, x2: int)
      requires Valid() && Ready(State()) && IsOctet(octet)
      modifies Repr
      ensures Valid() && (State(), x1, x2) == DecodeOctet(old(State()), octet)
    {
      hide LowStep, HighStep, InvQuantB, InvQuantAH, Add16, LimitPcm, Synthesised, Moved, Loaded;
      var il := octet % 64;
      var ih := octet / 64 % 4;
      var dl := InvQuantB(il, lo.det);
      var rl := LimitPcm(Add16(lo.s, dl));
      lo.FeedLow(il);
      ReconstructedSampleStays(hi.State(), ih);
      hi.FeedHigh(ih);
      var rh := LimitPcm(hi.r[0]);
      x1, x2 := QmfSynthesis(qmf, rl, rh);
    }

    method Decode(octets: seq<int>) returns (pcm: seq<int>)
      requires Valid() && Ready(State()) && Octets(octets)
      modifies Repr
      ensures Valid() && (State(), pcm) == DecodeRun(old(State()), octets)
    {
      hide Ready, DecodeRun, DecodeOctet;
      pcm := [];
      ghost var all := DecodeRun(State(), octets);
      assert octets[0..] == octets && [] + all.1 == all.1;
      for i := 0 to |octets|
        invariant Valid() && Ready(State())
        invariant var rest := DecodeRun(State(), octets[i..]);
                  DecodeRun(old(State()), octets) == (rest.0, pcm + rest.1)
      {
        DecodeRunUnfolds(State(), octets[i..]);
        var x1, x2 := DecodeNext(octets[i]);
        assert octets[i..][1..] == octets[i + 1..];
        ghost var rest := DecodeRun(State(), octets[i + 1..]);
        Regroup(pcm, [x1, x2], rest.1);
        pcm := pcm + [x1, x2];
      }
      DecodeRunUnfolds(State(), octets[|octets|..]);
      assert pcm + [] == pcm;
    }
  }
}
