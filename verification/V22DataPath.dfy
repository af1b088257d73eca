/** The V.22bis data path: scramble, differential quadrant code, constellation, line, slice,
    differential decode, descramble. Two bits to a symbol at 1200 bit/s, four at 2400. */
module V22DataPath {
  import opened V22Scrambler
  import opened V22Constellation

  function BitsPerSymbol(wide: bool): (n: nat) {
    if wide then 4 else 2
  }

  function BitCount(wide: bool, symbols: nat): (n: nat) {
    if wide then 4 * symbols else 2 * symbols
  }

  /** A number of bits that fills whole symbols. */
  predicate Whole(wide: bool, bits: nat) {
    if wide then bits % 4 == 0 else bits % 2 == 0
  }

  /** A string of whole symbols that is not empty has a first one, and whole symbols after it. */
  lemma FirstSymbol(wide: bool, bits: nat)
    requires Whole(wide, bits) && bits > 0
    ensures BitsPerSymbol(wide) <= bits && Whole(wide, bits - BitsPerSymbol(wide))
  {
  }

  lemma OneMoreSymbol(wide: bool, symbols: nat)
    ensures BitCount(wide, symbols + 1) == BitsPerSymbol(wide) + BitCount(wide, symbols)
    ensures BitCount(wide, 0) == 0
  {
  }

  function Dibit(first: bool, second: bool): (v: nat)
    ensures v < 4
  {
    (if first then 2 else 0) + (if second then 1 else 0)
  }

  /** The phase change that a dibit stands for, in right angles. */
  function PhaseStep(dibit: nat): (step: nat)
    requires dibit < 4
    ensures step < 4
  {
    match dibit
    case 0 => 1
    case 1 => 0
    case 2 => 2
    case _ => 3
  }

  lemma PhaseStepUndoesItself(dibit: nat)
    requires dibit < 4
    ensures PhaseStep(PhaseStep(dibit)) == dibit
  {
  }

  // ---- Line bits and symbols ----

  function Inner(wide: bool, line: seq<bool>): (v: nat)
    requires |line| == BitsPerSymbol(wide)
    ensures v < 4
  {
    if wide then Dibit(line[2], line[3]) else 1
  }

  lemma CandidateInRange(wide: bool, idx: nat)
    requires IsCandidate(wide, idx)
    ensures idx < 16 && idx / 4 < 4
  {
  }

  /** The transmitted index: the dibit turns the quadrant, the other two bits pick the point in it. */
  function MapSymbol(wide: bool, quadrant: nat, line: seq<bool>): (idx: nat)
    requires quadrant < 4 && |line| == BitsPerSymbol(wide)
    ensures IsCandidate(wide, idx)
  {
    (quadrant + PhaseStep(Dibit(line[0], line[1]))) % 4 * 4 + Inner(wide, line)
  }

  /** The line bits read off a received index, given the index before it. */
  function UnmapSymbol(wide: bool, last: nat, nearest: nat): (line: seq<bool>)
    requires last < 16 && nearest < 16
    ensures |line| == BitsPerSymbol(wide)
  {
    var raw := PhaseStep((nearest / 4 - last / 4) % 4);
    [raw / 2 == 1, raw % 2 == 1] + (if wide then [nearest / 2 % 2 == 1, nearest % 2 == 1] else [])
  }

  /** A symbol on the line: the first dibit turns the signal, 00 by 90 degrees, 01 by none, 10 by 180 and 11 by 270; of
      the other two bits the second widens the quadrant's first axis and the first the other one. */
  lemma SymbolOnTheLine(wide: bool, quadrant: nat, line: seq<bool>)
    requires quadrant < 4 && |line| == BitsPerSymbol(wide)
    ensures var turns := if !line[0] && !line[1] then 1 else if !line[0] then 0 else if !line[1] then 2 else 3;
            var across, up := if !wide || line[3] then 3.0 else 1.0, if wide && line[2] then 3.0 else 1.0;
            Point(MapSymbol(wide, quadrant, line)) == Rotate(turns, Rotate(quadrant, Complex(across, up)))
  {
    hide Point, Rotate;
    var turns := if !line[0] && !line[1] then 1 else if !line[0] then 0 else if !line[1] then 2 else 3;
    assert PhaseStep(Dibit(line[0], line[1])) == turns;
    InnerBitsOnGrid(quadrant, Inner(wide, line));
    TurnedIndex(quadrant, Inner(wide, line), turns);
    RotationMovesQuadrant(turns, 4 * quadrant + Inner(wide, line));
  }

  lemma DibitBits(first: bool, second: bool)
    ensures (Dibit(first, second) / 2 == 1) == first && (Dibit(first, second) % 2 == 1) == second
  {
  }

  /** Turning an index moves its quadrant and keeps its inner bits. */
  lemma SymbolTurned(wide: bool, k: nat, quadrant: nat, line: seq<bool>)
    requires k < 4 && quadrant < 4 && |line| == BitsPerSymbol(wide)
    ensures var idx := MapSymbol(wide, quadrant, line);
            var got := (idx + 4 * k) % 16;
            && idx / 4 == (quadrant + PhaseStep(Dibit(line[0], line[1]))) % 4
            && got / 4 == (idx / 4 + k) % 4
            && got % 4 == Inner(wide, line)
  {
    hide PhaseStep, Dibit, Inner;
    var q := (quadrant + PhaseStep(Dibit(line[0], line[1]))) % 4;
    TurnedIndex(q, Inner(wide, line), k);
  }

  /** A receiver holding the right reference quadrant reads the line bits back. */
  lemma SymbolRoundTrip(wide: bool, k: nat, quadrant: nat, last: nat, line: seq<bool>)
    requires k < 4 && quadrant < 4 && last < 16 && |line| == BitsPerSymbol(wide)
    requires last / 4 == (quadrant + k) % 4
    ensures UnmapSymbol(wide, last, (MapSymbol(wide, quadrant, line) + 4 * k) % 16) == line
  {
    hide PhaseStep, Dibit, MapSymbol, UnmapSymbol, Inner;
    var dibit := Dibit(line[0], line[1]);
    SymbolTurned(wide, k, quadrant, line);
    StepBetween(quadrant, PhaseStep(dibit), k);
    PhaseStepUndoesItself(dibit);
    UnmappedBits(wide, last, (MapSymbol(wide, quadrant, line) + 4 * k) % 16, line);
  }

  lemma UnmappedBits(wide: bool, last: nat, nearest: nat, line: seq<bool>)
    requires last < 16 && nearest < 16 && |line| == BitsPerSymbol(wide)
    requires PhaseStep((nearest / 4 - last / 4) % 4) == Dibit(line[0], line[1]) && nearest % 4 == Inner(wide, line)
    ensures UnmapSymbol(wide, last, nearest) == line
  {
    hide PhaseStep, Dibit;
    DibitBits(line[0], line[1]);
    if wide {
      DibitBits(line[2], line[3]);
      LowTwoBits(nearest);
      assert line == [line[0], line[1]] + [line[2], line[3]];
    } else {
      var none: seq<bool> := [];
      assert line == [line[0], line[1]] + none;
    }
  }

  lemma LowTwoBits(v: nat)
    ensures v / 2 % 2 == v % 4 / 2 && v % 2 == v % 4 % 2
  {
    var a, b := v / 4, v % 4;
    assert v == 4 * a + b;
    assert v / 2 == 2 * a + b / 2;
  }

  lemma TurnedIndex(q: nat, inner: nat, k: nat)
    requires q < 4 && inner < 4 && k < 4
    ensures (q * 4 + inner) / 4 == q
    ensures (q * 4 + inner + 4 * k) % 16 == (q + k) % 4 * 4 + inner
  {
  }

  /** Quadrants wrap around at most once. */
  lemma Wrapped(v: int)
    requires -4 < v < 8
    ensures v % 4 == if v < 0 then v + 4 else if v < 4 then v else v - 4
  {
  }

  lemma StepBetween(q: nat, step: nat, k: nat)
    requires q < 4 && step < 4 && k < 4
    ensures (((q + step) % 4 + k) % 4 - (q + k) % 4) % 4 == step
  {
    Wrapped(q + step);
    Wrapped(q + k);
    var turned := (q + step) % 4;
    Wrapped(turned + k);
    Wrapped((turned + k) % 4 - (q + k) % 4);
  }

  predicate Indices(idxs: seq<nat>) {
    forall i | 0 <= i < |idxs| :: idxs[i] < 16
  }

  /** Every index is one the transmitter can send at this rate. */
  predicate Transmitted(wide: bool, idxs: seq<nat>)
    ensures Transmitted(wide, idxs) ==> Indices(idxs)
  {
    forall i | 0 <= i < |idxs| :: IsCandidate(wide, idxs[i])
  }

  /** Indices for a whole string of line bits. */
  function MapRun(wide: bool, quadrant: nat, line: seq<bool>): (idxs: seq<nat>)
    requires quadrant < 4 && Whole(wide, |line|)
    ensures |line| == BitCount(wide, |idxs|)
    ensures Transmitted(wide, idxs)
    decreases |line|
  {
    hide Whole, BitCount, MapSymbol, IsCandidate;
    var n := BitsPerSymbol(wide);
    OneMoreSymbol(wide, 0);
    if line == [] then []
    else
      FirstSymbol(wide, |line|);
      var idx := MapSymbol(wide, quadrant, line[..n]);
      CandidateInRange(wide, idx);
      var rest := MapRun(wide, idx / 4, line[n..]);
      OneMoreSymbol(wide, |rest|);
      [idx] + rest
  }

  function UnmapRun(wide: bool, last: nat, idxs: seq<nat>): (line: seq<bool>)
    requires last < 16 && Indices(idxs)
    ensures |line| == BitCount(wide, |idxs|)
    decreases |idxs|
  {
    hide BitCount, UnmapSymbol;
    OneMoreSymbol(wide, 0);
    if idxs == [] then []
    else
      OneMoreSymbol(wide, |idxs| - 1);
      UnmapSymbol(wide, last, idxs[0]) + UnmapRun(wide, idxs[0], idxs[1..])
  }

  /** What a constant right-angle carrier phase error makes of the indices. */
  function Turned(k: nat, idxs: seq<nat>): (r: seq<nat>)
    requires k < 4
    ensures |r| == |idxs| && forall i | 0 <= i < |r| :: r[i] == (idxs[i] + 4 * k) % 16
  {
    seq(|idxs|, i requires 0 <= i < |idxs| => (idxs[i] + 4 * k) % 16)
  }

  /** The differential code cancels any constant right-angle phase error. */
  lemma {:induction false} LineBitsRecovered(wide: bool, k: nat, quadrant: nat, last: nat, line: seq<bool>)
    requires k < 4 && quadrant < 4 && last < 16 && Whole(wide, |line|)
    requires last / 4 == (quadrant + k) % 4
    ensures UnmapRun(wide, last, Turned(k, MapRun(wide, quadrant, line))) == line
    decreases |line|
  {
    hide MapSymbol, UnmapSymbol, PhaseStep, Dibit, Inner, Turned, MapRun, UnmapRun, Whole, BitCount, IsCandidate,
         Transmitted;
    if line == [] {
      NothingMapped(wide, k, quadrant, last);
    } else {
      var n := BitsPerSymbol(wide);
      FirstSymbol(wide, |line|);
      var head, tail := line[..n], line[n..];
      SymbolTurned(wide, k, quadrant, head);
      SymbolRoundTrip(wide, k, quadrant, last, head);
      var idx := MapSymbol(wide, quadrant, head);
      CandidateInRange(wide, idx);
      var rest := MapRun(wide, idx / 4, tail);
      MapRunUnfolds(wide, quadrant, line);
      TurnedUnfolds(k, idx, rest);
      UnmapRunUnfolds(wide, last, (idx + 4 * k) % 16, Turned(k, rest));
      LineBitsRecovered(wide, k, idx / 4, (idx + 4 * k) % 16, tail);
      assert head + tail == line;
    }
  }

  lemma NothingMapped(wide: bool, k: nat, quadrant: nat, last: nat)
    requires k < 4 && quadrant < 4 && last < 16
    ensures Whole(wide, 0) && UnmapRun(wide, last, Turned(k, MapRun(wide, quadrant, []))) == []
  {
  }

  lemma MapRunUnfolds(wide: bool, quadrant: nat, line: seq<bool>)
    requires quadrant < 4 && Whole(wide, |line|) && line != []
    ensures var n := BitsPerSymbol(wide);
            && n <= |line| && Whole(wide, |line| - n)
            && var idx := MapSymbol(wide, quadrant, line[..n]);
               idx < 16 && MapRun(wide, quadrant, line) == [idx] + MapRun(wide, idx / 4, line[n..])
  {
    hide MapSymbol, Whole, BitCount, Transmitted, BitsPerSymbol, IsCandidate;
    FirstSymbol(wide, |line|);
    CandidateInRange(wide, MapSymbol(wide, quadrant, line[..BitsPerSymbol(wide)]));
  }

  lemma TurnedUnfolds(k: nat, idx: nat, rest: seq<nat>)
    requires k < 4
    ensures Turned(k, [idx] + rest) == [(idx + 4 * k) % 16] + Turned(k, rest)
  {
  }

  lemma UnmapRunUnfolds(wide: bool, last: nat, idx: nat, rest: seq<nat>)
    requires last < 16 && idx < 16 && Indices(rest)
    ensures Indices([idx] + rest)
    ensures UnmapRun(wide, last, [idx] + rest) == UnmapSymbol(wide, last, idx) + UnmapRun(wide, idx, rest)
  {
    hide UnmapSymbol, BitCount;
    assert ([idx] + rest)[1..] == rest;
  }

  // ---- Sender and receiver ----

  datatype Sender = Sender(scr: Scrambler, quadrant: nat)

  /** last is the most recently decided index, of which only the quadrant matters. */
  datatype Receiver = Receiver(scr: Scrambler, last: nat)

  function SendSymbol(t: Taps, wide: bool, tx: Sender, bits: seq<bool>): (r: (Sender, nat))
    requires t.Valid() && tx.quadrant < 4 && |bits| == BitsPerSymbol(wide)
    ensures IsCandidate(wide, r.1) && r.0.quadrant == r.1 / 4
  {
    var (scr, line) := ScrambleRun(t, tx.scr, bits);
    var idx := MapSymbol(wide, tx.quadrant, line);
    (Sender(scr, idx / 4), idx)
  }

  function DecodeSymbol(t: Taps, wide: bool, rx: Receiver, nearest: nat): (r: (Receiver, seq<bool>))
    requires t.Valid() && rx.last < 16 && nearest < 16
    ensures r.0.last == nearest && |r.1| == BitsPerSymbol(wide)
  {
    var (scr, bits) := DescrambleRun(t, rx.scr, UnmapSymbol(wide, rx.last, nearest));
    (Receiver(scr, nearest), bits)
  }

  function SendRun(t: Taps, wide: bool, tx: Sender, bits: seq<bool>): (r: (Sender, seq<nat>))
    requires t.Valid() && tx.quadrant < 4 && Whole(wide, |bits|)
    ensures r.0.quadrant < 4 && |bits| == BitCount(wide, |r.1|)
    ensures Transmitted(wide, r.1)
    decreases |bits|
  {
    hide SendSymbol, IsCandidate, Whole, BitCount;
    var n := BitsPerSymbol(wide);
    OneMoreSymbol(wide, 0);
    if bits == [] then (tx, [])
    else
      FirstSymbol(wide, |bits|);
      var (tx1, idx) := SendSymbol(t, wide, tx, bits[..n]);
      CandidateInRange(wide, idx);
      var (tx2, rest) := SendRun(t, wide, tx1, bits[n..]);
      OneMoreSymbol(wide, |rest|);
      (tx2, [idx] + rest)
  }

  /** One received baseband sample after another: slice, decode, descramble. */
  function ReceiveRun(t: Taps, wide: bool, rx: Receiver, zs: seq<Complex>): (r: (Receiver, seq<bool>))
    requires t.Valid() && rx.last < 16
    ensures r.0.last < 16 && |r.1| == BitCount(wide, |zs|)
    decreases |zs|
  {
    hide DecodeSymbol, SliceOf, BitCount;
    OneMoreSymbol(wide, 0);
    if zs == [] then (rx, [])
    else
      OneMoreSymbol(wide, |zs| - 1);
      var (rx1, bits) := DecodeSymbol(t, wide, rx, SliceOf(wide, zs[0]));
      var (rx2, rest) := ReceiveRun(t, wide, rx1, zs[1..]);
      (rx2, bits + rest)
  }

  /** The line: a constant carrier phase error of k right angles and noise on every symbol. */
  function Line(k: nat, idxs: seq<nat>, noise: seq<Complex>): (zs: seq<Complex>)
    requires k < 4 && |noise| == |idxs| && Indices(idxs)
    ensures |zs| == |idxs|
  {
    seq(|idxs|, i requires 0 <= i < |idxs| => Plus(Rotate(k, Point(idxs[i])), noise[i]))
  }

  predicate AllTolerable(wide: bool, noise: seq<Complex>) {
    forall i | 0 <= i < |noise| :: Tolerable(wide, noise[i])
  }

  // ---- The chain taken apart ----

  /** Sending is scrambling followed by mapping. */
  lemma {:induction false} SendTakenApart(t: Taps, wide: bool, tx: Sender, bits: seq<bool>)
    requires t.Valid() && tx.quadrant < 4 && Whole(wide, |bits|)
    ensures var (scr, line) := ScrambleRun(t, tx.scr, bits);
            SendRun(t, wide, tx, bits).0.scr == scr && SendRun(t, wide, tx, bits).1 == MapRun(wide, tx.quadrant, line)
    decreases |bits|
  {
    hide MapSymbol, MapRun, ScrambleRun, SendRun, Whole, BitCount, IsCandidate, Transmitted;
    if bits == [] {
      NothingSent(t, wide, tx);
    } else {
      var n := BitsPerSymbol(wide);
      FirstSymbol(wide, |bits|);
      var first, others := bits[..n], bits[n..];
      SendRunUnfolds(t, wide, tx, bits);
      var tx1 := SendSymbol(t, wide, tx, first).0;
      CandidateInRange(wide, SendSymbol(t, wide, tx, first).1);
      SendTakenApart(t, wide, tx1, others);
      ScrambleInPieces(t, tx.scr, first, others);
      assert first + others == bits;
      var line := ScrambleRun(t, tx.scr, bits).1;
      assert line[..n] == ScrambleRun(t, tx.scr, first).1 && line[n..] == ScrambleRun(t, tx1.scr, others).1;
      MapRunUnfolds(wide, tx.quadrant, line);
    }
  }

  lemma NothingSent(t: Taps, wide: bool, tx: Sender)
    requires t.Valid() && tx.quadrant < 4
    ensures ScrambleRun(t, tx.scr, []) == (tx.scr, []) && Whole(wide, 0)
    ensures SendRun(t, wide, tx, []) == (tx, []) && MapRun(wide, tx.quadrant, []) == []
  {
  }

  lemma SendRunUnfolds(t: Taps, wide: bool, tx: Sender, bits: seq<bool>)
    requires t.Valid() && tx.quadrant < 4 && Whole(wide, |bits|) && bits != []
    ensures var n := BitsPerSymbol(wide);
            && n <= |bits| && Whole(wide, |bits| - n)
            && var (tx1, idx) := SendSymbol(t, wide, tx, bits[..n]);
               && tx1.quadrant < 4
               && var rest := SendRun(t, wide, tx1, bits[n..]);
                  SendRun(t, wide, tx, bits) == (rest.0, [idx] + rest.1)
  {
    hide SendSymbol, BitCount, IsCandidate, Whole, Transmitted, BitsPerSymbol;
    var n := BitsPerSymbol(wide);
    FirstSymbol(wide, |bits|);
    CandidateInRange(wide, SendSymbol(t, wide, tx, bits[..n]).1);
  }

  /** Receiving is slicing and unmapping followed by descrambling; the noise has no say. */
  lemma {:induction false} ReceiveTakenApart(t: Taps, wide: bool, k: nat, rx: Receiver, idxs: seq<nat>,
                                             noise: seq<Complex>)
    requires t.Valid() && k < 4 && rx.last < 16 && |noise| == |idxs| && AllTolerable(wide, noise)
    requires Transmitted(wide, idxs)
    ensures ReceiveRun(t, wide, rx, Line(k, idxs, noise)).1
            == DescrambleRun(t, rx.scr, UnmapRun(wide, rx.last, Turned(k, idxs))).1
    decreases |idxs|
  {
    hide UnmapSymbol, SliceOf, Tolerable, DescrambleBit, DescrambleRun, IsCandidate, Rotate, Point, Plus, Turned, Line,
         ReceiveRun, UnmapRun, BitCount;
    if idxs == [] {
      NothingReceived(t, wide, k, rx, noise);
    } else {
      assert IsCandidate(wide, idxs[0]) && Tolerable(wide, noise[0]);
      SliceRecovers(wide, k, idxs[0], noise[0]);
      var nearest, turned := (idxs[0] + 4 * k) % 16, Turned(k, idxs[1..]);
      var rx1 := DecodeSymbol(t, wide, rx, nearest).0;
      ReceiveTakenApart(t, wide, k, rx1, idxs[1..], noise[1..]);
      LineUnfolds(k, idxs, noise);
      ReceiveRunUnfolds(t, wide, rx, Line(k, idxs, noise));
      assert idxs == [idxs[0]] + idxs[1..];
      TurnedUnfolds(k, idxs[0], idxs[1..]);
      UnmapRunUnfolds(wide, rx.last, nearest, turned);
      DescrambleInPieces(t, rx.scr, UnmapSymbol(wide, rx.last, nearest), UnmapRun(wide, nearest, turned));
    }
  }

  lemma NothingReceived(t: Taps, wide: bool, k: nat, rx: Receiver, noise: seq<Complex>)
    requires t.Valid() && k < 4 && rx.last < 16 && noise == []
    ensures ReceiveRun(t, wide, rx, Line(k, [], noise)).1
            == DescrambleRun(t, rx.scr, UnmapRun(wide, rx.last, Turned(k, []))).1
  {
  }

  lemma LineUnfolds(k: nat, idxs: seq<nat>, noise: seq<Complex>)
    requires k < 4 && |noise| == |idxs| && Indices(idxs) && idxs != []
    ensures var zs := Line(k, idxs, noise);
            zs[0] == Plus(Rotate(k, Point(idxs[0])), noise[0]) && zs[1..] == Line(k, idxs[1..], noise[1..])
  {
    hide Plus, Rotate, Point;
  }

  lemma ReceiveRunUnfolds(t: Taps, wide: bool, rx: Receiver, zs: seq<Complex>)
    requires t.Valid() && rx.last < 16 && zs != []
    ensures var (rx1, bits) := DecodeSymbol(t, wide, rx, SliceOf(wide, zs[0]));
            ReceiveRun(t, wide, rx, zs).1 == bits + ReceiveRun(t, wide, rx1, zs[1..]).1
  {
    hide DecodeSymbol, SliceOf, BitCount;
  }

  // ---- End to end ----

  /** With one reference symbol held and the descrambler synchronised, the receiver delivers the source
      bits: any bit string, either rate, any constant right-angle phase error, any tolerable noise. */
  lemma BitsGetThrough(t: Taps, wide: bool, k: nat, n: nat, tx: Sender, rx: Receiver, bits: seq<bool>,
                       noise: seq<Complex>)
    requires t.Valid() && k < 4 && tx.quadrant < 4 && rx.last < 16 && Whole(wide, |bits|)
    requires rx.last / 4 == (tx.quadrant + k) % 4
    requires t.tap2 < n && Agree(n, true, tx.scr, rx.scr)
    requires |noise| == |SendRun(t, wide, tx, bits).1| && AllTolerable(wide, noise)
    ensures ReceiveRun(t, wide, rx, Line(k, SendRun(t, wide, tx, bits).1, noise)).1 == bits
  {
    hide ReceiveRun, SendRun, ScrambleRun, DescrambleRun, MapRun, Line, AllTolerable, Agree, Whole, BitCount,
         Transmitted, Indices;
    var line := ScrambleRun(t, tx.scr, bits).1;
    SendTakenApart(t, wide, tx, bits);
    LineDescrambled(t, wide, k, tx.quadrant, rx, line, noise);
    DescrambleUndoesScramble(t, n, tx.scr, rx.scr, bits);
  }

  /** With the right reference the receiver descrambles exactly the line bits. */
  lemma LineDescrambled(t: Taps, wide: bool, k: nat, quadrant: nat, rx: Receiver, line: seq<bool>, noise: seq<Complex>)
    requires t.Valid() && k < 4 && quadrant < 4 && rx.last < 16 && Whole(wide, |line|)
    requires rx.last / 4 == (quadrant + k) % 4
    requires |noise| == |MapRun(wide, quadrant, line)| && AllTolerable(wide, noise)
    ensures ReceiveRun(t, wide, rx, Line(k, MapRun(wide, quadrant, line), noise)).1 == DescrambleRun(t, rx.scr, line).1
  {
    hide ReceiveRun, DescrambleRun, MapRun, UnmapRun, Line, AllTolerable, Turned, Whole, BitCount, IsCandidate;
    ReceiveTakenApart(t, wide, k, rx, MapRun(wide, quadrant, line), noise);
    LineBitsRecovered(wide, k, quadrant, rx.last, line);
  }

  /** A wrong reference costs one symbol's line bits and nothing else. */
  lemma OneSymbolLost(wide: bool, k: nat, quadrant: nat, last: nat, head: seq<bool>, tail: seq<bool>)
    requires k < 4 && quadrant < 4 && last < 16
    requires |head| == BitsPerSymbol(wide) && Whole(wide, |tail|) && Whole(wide, |head + tail|)
    ensures var got := UnmapRun(wide, last, Turned(k, MapRun(wide, quadrant, head + tail)));
            |got| == |head + tail| && got[|head|..] == tail
  {
    hide MapSymbol, UnmapSymbol, PhaseStep, Dibit, Inner, Turned, MapRun, UnmapRun, Whole, BitCount, IsCandidate,
         Transmitted;
    var n := BitsPerSymbol(wide);
    assert (head + tail)[..n] == head && (head + tail)[n..] == tail;
    var idx := MapSymbol(wide, quadrant, head);
    CandidateInRange(wide, idx);
    var rest := MapRun(wide, idx / 4, tail);
    MapRunUnfolds(wide, quadrant, head + tail);
    TurnedUnfolds(k, idx, rest);
    UnmapRunUnfolds(wide, last, (idx + 4 * k) % 16, Turned(k, rest));
    SymbolTurned(wide, k, quadrant, head);
    LineBitsRecovered(wide, k, idx / 4, (idx + 4 * k) % 16, tail);
  }

  /** From any receiver state at all, wrong reference symbol, wrong register and wrong guard counter
      included, everything after one symbol plus a lead-in longer than the longer tap, with a zero on
      the line, is delivered without error. */
  lemma ReceiverFindsItself(t: Taps, wide: bool, k: nat, tx: Sender, rx: Receiver,
                            first: seq<bool>, lead: seq<bool>, data: seq<bool>, noise: seq<Complex>)
    requires t.Valid() && k < 4 && tx.quadrant < 4 && rx.last < 16
    requires |first| == BitsPerSymbol(wide) && Whole(wide, |lead + data|)
    requires |lead| > t.tap2 && false in ScrambleRun(t, ScrambleRun(t, tx.scr, first).0, lead).1
    requires Whole(wide, |first + (lead + data)|)
    requires |noise| == |SendRun(t, wide, tx, first + (lead + data)).1| && AllTolerable(wide, noise)
    ensures var got := ReceiveRun(t, wide, rx, Line(k, SendRun(t, wide, tx, first + (lead + data)).1, noise)).1;
            |got| == |first + (lead + data)| && got[|first| + |lead|..] == data
  {
    hide ReceiveRun, SendRun, ScrambleRun, DescrambleRun, MapRun, UnmapRun, Turned, Line, AllTolerable;
    var bits := first + (lead + data);
    SendTakenApart(t, wide, tx, bits);
    ScrambleInPieces(t, tx.scr, first, lead + data);
    var (mid, head) := ScrambleRun(t, tx.scr, first);
    var tail := ScrambleRun(t, mid, lead + data).1;
    ReceiveTakenApart(t, wide, k, rx, MapRun(wide, tx.quadrant, head + tail), noise);
    OneSymbolLost(wide, k, tx.quadrant, rx.last, head, tail);
    var got := UnmapRun(wide, rx.last, Turned(k, MapRun(wide, tx.quadrant, head + tail)));
    var wrong := got[..|head|];
    assert got == wrong + tail;
    DescrambleInPieces(t, rx.scr, wrong, tail);
    SelfSynchronises(t, mid, DescrambleRun(t, rx.scr, wrong).0, lead, data);
  }
}
