/** A whole V.22bis call set-up between two modems on an ideal line: one symbol heard for every symbol sent, any
    constant right-angle turn and any tolerable noise in both directions, from power-up to data. */
module V22Call {
  import opened ByteBits
  import opened Sequences
  import opened V22Constellation
  import opened V22DataPath
  import opened V22Handshake
  import opened V22ScrambledOnes
  import opened V22Scrambler
  import opened V22Training

  // ---- The line between two modems ----

  /** One symbol time: four source bits on offer at each end, and the noise at each receiver. */
  datatype Beat = Beat(bitsA: seq<bool>, bitsB: seq<bool>, noiseA: Complex, noiseB: Complex)

  predicate Good(beat: Beat) {
    |beat.bitsA| == 4 && |beat.bitsB| == 4 && Tolerable(true, beat.noiseA) && Tolerable(true, beat.noiseB)
  }

  function Offered(m: Modem, four: seq<bool>): (bits: seq<bool>)
    requires |four| == 4
    ensures |bits| == BitsPerSymbol(Wide(m))
  {
    four[..BitsPerSymbol(Wide(m))]
  }

  /** A receiver takes what the far end has sent: silence is a lost carrier, the first symbol after it a new one. */
  function Listen(m: Modem, out: Output, k: nat, noise: Complex): (m': Modem)
    requires WellFormed(m) && k < 4 && (out.Sent? ==> out.idx < 16)
    ensures WellFormed(m')
  {
    hide ProcessBaud, SliceOf, Point, Rotate;
    match out
    case Silence => m.(rx := m.rx.(carrier := false))
    case Sent(idx) =>
      var m1 := if m.rx.carrier then m else CarrierAppears(m);
      ProcessBaud(m1, SliceOf(m1.rx.sixteenWay, Plus(Rotate(k, Point(idx)), noise)))
  }

  /** The calling and the answering modem. */
  datatype Pair = Pair(a: Modem, b: Modem)

  predicate BothFormed(p: Pair) {
    WellFormed(p.a) && WellFormed(p.b)
  }

  /** Both send a symbol, and then both hear the other's. */
  function Round(p: Pair, ka: nat, kb: nat, beat: Beat): (p': Pair)
    requires BothFormed(p) && ka < 4 && kb < 4 && Good(beat)
    ensures BothFormed(p')
  {
    hide TxSymbol, Listen, WellFormed;
    RateKept(p.a, Offered(p.a, beat.bitsA));
    RateKept(p.b, Offered(p.b, beat.bitsB));
    var (a, fromA) := TxSymbol(p.a, Offered(p.a, beat.bitsA));
    var (b, fromB) := TxSymbol(p.b, Offered(p.b, beat.bitsB));
    Pair(Listen(a, fromB, ka, beat.noiseA), Listen(b, fromA, kb, beat.noiseB))
  }

  function Rounds(p: Pair, ka: nat, kb: nat, beats: seq<Beat>): (p': Pair)
    requires BothFormed(p) && ka < 4 && kb < 4 && forall i | 0 <= i < |beats| :: Good(beats[i])
    ensures BothFormed(p')
    decreases |beats|
  {
    hide Round, BothFormed;
    if beats == [] then p else Round(Rounds(p, ka, kb, beats[..|beats| - 1]), ka, kb, beats[|beats| - 1])
  }

  // ---- What a receiver decides ----

  lemma ToleratedByBoth(n: Complex)
    requires Tolerable(true, n)
    ensures Tolerable(false, n)
  {
    SquareBelowOne(n.re);
    SquareBelowOne(n.im);
  }

  lemma SquareBelowOne(x: real)
    requires -1.0 < x < 1.0
    ensures x * x < 1.0
  {
    if x >= 0.0 {
      assert x * x <= x;
    } else {
      assert -x * -x <= -x;
      assert x * x == -x * -x;
    }
  }

  /** With the carrier up, a point of the smaller constellation is decided right by either slicer. */
  lemma HearsPoint(m: Modem, quadrant: nat, k: nat, noise: Complex)
    requires WellFormed(m) && quadrant < 4 && k < 4 && Tolerable(true, noise)
    ensures Listen(m, Sent(4 * quadrant + 1), k, noise)
            == ProcessBaud(if m.rx.carrier then m else CarrierAppears(m), Decided(quadrant, k))
  {
    hide ProcessBaud, SliceOf, Point, Rotate;
    ToleratedByBoth(noise);
    SliceRecovers(true, k, 4 * quadrant + 1, noise);
    SliceRecovers(false, k, 4 * quadrant + 1, noise);
  }

  /** With 16-way decisions, any point is. */
  lemma HearsWide(m: Modem, idx: nat, k: nat, noise: Complex)
    requires WellFormed(m) && m.rx.carrier && m.rx.sixteenWay && idx < 16 && k < 4 && Tolerable(true, noise)
    ensures Listen(m, Sent(idx), k, noise) == ProcessBaud(m, (idx + 4 * k) % 16)
  {
    hide ProcessBaud, SliceOf, Point, Rotate;
    SliceRecovers(true, k, idx, noise);
  }

  // ---- The bauds of each receiver stage ----

  lemma AcquiringBaud(m: Modem, nearest: nat)
    requires WellFormed(m) && m.rx.stage.SymbolAcquisition? && nearest < 16
    ensures var m', raw := ProcessBaud(m, nearest), DibitOf(m.rx.last, nearest);
            m' == if m.rx.count < 39 then m.(rx := m.rx.(count := m.rx.count + 1, lastRaw := raw))
                  else m.(rate := 1200,
                          rx := m.rx.(repeats := 0, last := nearest, count := 0, lastRaw := raw,
                                      stage := if m.calling then UnscrambledOnes else ScrambledOnesAt1200))
  {
    hide PhaseStep;
  }

  /** Unscrambled ones are answered after 366 bauds, if they have been steady for the last 273. */
  lemma UnscrambledBaud(m: Modem, nearest: nat)
    requires WellFormed(m) && m.rx.stage.UnscrambledOnes? && nearest < 16
    ensures var m', raw := ProcessBaud(m, nearest), DibitOf(m.rx.last, nearest);
            var repeats := if raw == m.rx.lastRaw then m.rx.repeats + 1 else 0;
            var answered := raw == m.rx.lastRaw && (raw == 3 || raw == 0) && repeats >= 273;
            m' == if m.rx.count != 365 then
                    m.(rx := m.rx.(last := nearest, repeats := repeats, count := m.rx.count + 1, lastRaw := raw))
                  else
                    m.(rx := m.rx.(last := nearest, repeats := 0, count := 0, lastRaw := raw,
                                   stage := UnscrambledOnesSustaining),
                       tx := if answered then m.tx.(count := 0, stage := if m.maxRate == 2400 then U0011 else S11)
                             else m.tx)
  {
    hide PhaseStep;
  }

  /** The first dibit that breaks the steady ones starts the caller's timed segment and its search for S1. */
  lemma SustainedBaud(m: Modem, nearest: nat)
    requires WellFormed(m) && m.rx.stage.UnscrambledOnesSustaining? && nearest < 16
    ensures var m', raw := ProcessBaud(m, nearest), DibitOf(m.rx.last, nearest);
            m' == if raw == m.rx.lastRaw then m.(rx := m.rx.(last := nearest))
                  else m.(tx := m.tx.(count := 0, stage := TimedS11),
                          rx := m.rx.(last := nearest, count := 0, repeats := 0, lastRaw := raw,
                                      stage := ScrambledOnesAt1200))
  {
    hide PhaseStep;
  }

  /** The baud that gives the search up. */
  lemma GivesUpBaud(m: Modem, nearest: nat)
    requires WellFormed(m) && m.rx.stage.ScrambledOnesAt1200? && m.rate == 1200 && m.rx.count == 161 && nearest < 16
    requires !(S1Ends(m.rx, nearest) && m.maxRate == 2400)
    ensures var m' := ProcessBaud(m, nearest);
            && m'.tx == m.tx.(count := 0, stage := TimedS11) && m'.rate == 1200
            && m'.maxRate == m.maxRate && m'.calling == m.calling
            && m'.rx == DecodeBaud(m.rx, nearest).0.(count := 162, lastRaw := m'.rx.lastRaw, repeats := m'.rx.repeats,
                          stage := if m.calling then RxNormal else ScrambledOnesAt1200Sustaining)
  {
    hide PhaseStep, DecodeSymbol, S1Ends, RawBits;
  }

  /** With 2400 bit/s negotiated the receiver counts on, 330 bauds in a caller and 270 in an answerer, and then decides
      among 16 points. */
  lemma NegotiatedBaud(m: Modem, nearest: nat)
    requires WellFormed(m) && m.rx.stage.ScrambledOnesAt1200? && m.rate == 2400 && nearest < 16
    ensures var m' := ProcessBaud(m, nearest);
            && m'.tx == m.tx && m'.rate == 2400 && m'.maxRate == m.maxRate && m'.calling == m.calling
            && var rx := DecodeBaud(m.rx, nearest).0.(count := m.rx.count + 1, lastRaw := m'.rx.lastRaw);
               m'.rx == if m.rx.count + 1 < (if m.calling then 330 else 270) then rx
                        else rx.(sixteenWay := true, repeats := 0, stage := WaitForScrambledOnesAt2400)
  {
    hide PhaseStep, DecodeSymbol, S1Ends, RawBits;
  }

  /** An answerer that has given S1 up waits for 622 bauds in all. */
  lemma SustainingBaud(m: Modem, nearest: nat)
    requires WellFormed(m) && m.rx.stage.ScrambledOnesAt1200Sustaining? && nearest < 16
    ensures var m' := ProcessBaud(m, nearest);
            && m'.tx == m.tx && m'.rate == m.rate && m'.maxRate == m.maxRate && m'.calling == m.calling
            && m'.rx == DecodeBaud(m.rx, nearest).0.(count := m.rx.count + 1, lastRaw := m'.rx.lastRaw,
                          stage := if m.rx.count + 1 > 621 then RxNormal else ScrambledOnesAt1200Sustaining)
  {
    hide PhaseStep, DecodeSymbol, S1Ends, RawBits;
  }

  // ---- The symbols of each transmitter stage ----

  lemma SilentSymbol(m: Modem, bits: seq<bool>)
    requires WellFormed(m) && |bits| == BitsPerSymbol(Wide(m)) && m.tx.stage.InitialSilence? && m.tx.quadrant == 0
    ensures TxSymbol(m, bits).1 == Silence
    ensures TxSymbol(m, bits).0 == if m.calling then m
                                   else if m.tx.count < 44 then m.(tx := m.tx.(count := m.tx.count + 1))
                                   else m.(tx := m.tx.(count := 0, stage := U11))
  {
    hide PhaseStep;
  }

  /** A symbol of scrambled ones at two bits to the symbol; the timed segment has 453 of them. */
  lemma OnesSymbol(m: Modem, bits: seq<bool>)
    requires WellFormed(m) && |bits| == BitsPerSymbol(Wide(m))
    requires m.tx.stage.S11? || (m.tx.stage.TimedS11? && m.tx.count < 453)
    ensures m.tx.taps.Valid() && m.tx.quadrant < 4
    ensures var (m', out) := TxSymbol(m, bits);
            var (st, first, second) := TwoOnes(m.tx.taps, m.tx.scr);
            var q := NextQuadrant(m.tx.quadrant, Dibit(first, second));
            && out == Sent(4 * q + 1)
            && m' == m.(tx := m.tx.(scr := st, quadrant := q,
                                    count := if m.tx.stage.S11? then m.tx.count
                                             else if m.tx.count < 452 then m.tx.count + 1 else 0,
                                    stage := if m.tx.stage.S11? || m.tx.count < 452 then m.tx.stage
                                             else if m.rate == 2400 then S1111 else TxNormal))
  {
    Quadrants(m);
    SymbolOfTwoOnes(m.tx.taps, Sender(m.tx.scr, m.tx.quadrant));
    hide SendSymbol, PhaseStep, TwoOnes, NextQuadrant;
    assert Ones(2) == [true, true];
  }

  /** The segment at four bits to the symbol has 120 symbols. */
  lemma WideSymbol(m: Modem, bits: seq<bool>)
    requires WellFormed(m) && |bits| == BitsPerSymbol(Wide(m)) && m.tx.stage.S1111? && m.tx.count < 120
    ensures m.tx.taps.Valid() && m.tx.quadrant < 4
    ensures var (m', out) := TxSymbol(m, bits);
            var sent := SendSymbol(m.tx.taps, true, SenderOf(m), Ones(4));
            && out == Sent(sent.1) && sent.1 < 16
            && m' == m.(tx := m.tx.(scr := sent.0.scr, quadrant := sent.0.quadrant,
                                    count := if m.tx.count < 119 then m.tx.count + 1 else 0,
                                    stage := if m.tx.count < 119 then S1111 else TxNormal))
  {
    hide SendSymbol, PhaseStep;
    assert Ones(4) == [true, true, true, true];
  }

  lemma DataSymbol(m: Modem, bits: seq<bool>)
    requires WellFormed(m) && |bits| == BitsPerSymbol(Wide(m)) && m.tx.stage.TxNormal?
    ensures var (m', out) := TxSymbol(m, bits);
            && out.Sent? && out.idx < 16 && IsCandidate(Wide(m), out.idx)
            && m' == m.(tx := m.tx.(scr := m'.tx.scr, quadrant := m'.tx.quadrant))
  {
    hide SendSymbol, PhaseStep;
  }

  // ---- What no step changes ----

  /** The callers' own parameters; the taps of each direction agree, and the guard counters count. */
  predicate Sides(p: Pair, maxA: nat, maxB: nat) {
    && BothFormed(p) && p.a.calling && !p.b.calling && p.a.maxRate == maxA && p.b.maxRate == maxB
    && p.b.rx.taps == p.a.tx.taps && p.a.rx.taps == p.b.tx.taps
    && KnownTaps(p.a.tx.taps) && KnownTaps(p.b.tx.taps) && Counts(p.a.tx.scr) && Counts(p.b.tx.scr)
  }

  predicate KnownTaps(t: Taps)
    ensures KnownTaps(t) ==> t.Valid() && t.tap2 < 24
  {
    t == CALLING_TAPS || t == ANSWERING_TAPS
  }

  predicate SameSide(m: Modem, m': Modem) {
    && m'.calling == m.calling && m'.maxRate == m.maxRate && m'.rx.taps == m.rx.taps
    && m'.tx == m.tx.(count := m'.tx.count, stage := m'.tx.stage)
  }

  lemma SearchKeepsSide(m: Modem, nearest: nat)
    requires WellFormed(m) && nearest < 16
    ensures SameSide(m, AfterScrambledOnes(m, RawBits(m.rx, nearest), nearest))
  {
    hide PhaseStep, DecodeSymbol, S1Ends, RawBits;
  }

  lemma OthersKeepSide(m: Modem, nearest: nat)
    requires WellFormed(m) && nearest < 16
    ensures SameSide(m, AfterAcquisition(m, nearest))
    ensures SameSide(m, AfterUnscrambledOnes(m, RawBits(m.rx, nearest), nearest))
    ensures SameSide(m, AfterUnscrambledOnesSustaining(m, RawBits(m.rx, nearest), nearest))
    ensures SameSide(m, AfterSustaining(m, nearest)) && SameSide(m, AfterWait(m, nearest))
  {
    hide PhaseStep, DecodeSymbol, RawBits;
  }

  lemma BaudKeepsSide(m: Modem, nearest: nat)
    requires WellFormed(m) && nearest < 16
    ensures SameSide(m, ProcessBaud(m, nearest))
  {
    SearchKeepsSide(m, nearest);
    OthersKeepSide(m, nearest);
    hide PhaseStep, DecodeSymbol, RawBits, AfterScrambledOnes, AfterAcquisition, AfterUnscrambledOnes, AfterWait;
    hide AfterUnscrambledOnesSustaining, AfterSustaining;
  }

  lemma ListenKeepsSide(m: Modem, out: Output, k: nat, noise: Complex)
    requires WellFormed(m) && k < 4 && (out.Sent? ==> out.idx < 16)
    ensures SameSide(m, Listen(m, out, k, noise))
  {
    hide ProcessBaud, SliceOf, Point, Rotate, Plus;
    if out.Sent? {
      var m1 := if m.rx.carrier then m else CarrierAppears(m);
      BaudKeepsSide(m1, SliceOf(m1.rx.sixteenWay, Plus(Rotate(k, Point(out.idx)), noise)));
    }
  }

  lemma EmitKeepsSide(tx: TxState, wide: bool, bits: seq<bool>)
    requires tx.taps.Valid() && tx.quadrant < 4 && |bits| == BitsPerSymbol(wide) && Counts(tx.scr)
    ensures var tx' := Emit(tx, wide, bits).0; tx'.taps == tx.taps && Counts(tx'.scr)
  {
    CountsAfterRun(tx.taps, tx.scr, bits);
  }

  lemma EmittingKeepsSide(m: Modem, tx: TxState, wide: bool)
    requires tx.taps == m.tx.taps && tx.taps.Valid() && tx.quadrant < 4 && Counts(tx.scr)
    ensures var m' := Emitting(m, tx, wide).0;
            m' == m.(tx := m'.tx) && m'.tx.taps == m.tx.taps && Counts(m'.tx.scr)
  {
    hide Counts, Emit;
    EmitKeepsSide(tx, wide, if wide then [true, true, true, true] else [true, true]);
  }

  lemma TrainingKeepsSide(m: Modem)
    requires WellFormed(m) && Counts(m.tx.scr)
    ensures var m' := TrainingSymbol(m).0;
            m' == m.(tx := m'.tx) && m'.tx.taps == m.tx.taps && Counts(m'.tx.scr)
  {
    Quadrants(m);
    hide Emitting, Counts, PhaseStep;
    var tx := m.tx;
    EmittingKeepsSide(m, tx, false);
    EmittingKeepsSide(m, tx.(count := tx.count + 1), false);
    EmittingKeepsSide(m, tx.(count := tx.count + 1), true);
    EmittingKeepsSide(m, tx.(count := 0, stage := S1111), false);
    EmittingKeepsSide(m, tx.(count := 0, stage := TxNormal), false);
    EmittingKeepsSide(m, tx.(count := 0, stage := TxNormal), true);
  }

  lemma SymbolKeepsSide(m: Modem, bits: seq<bool>)
    requires WellFormed(m) && |bits| == BitsPerSymbol(Wide(m)) && Counts(m.tx.scr)
    ensures var m' := TxSymbol(m, bits).0;
            && m'.calling == m.calling && m'.maxRate == m.maxRate && m'.rx == m.rx && m'.rate == m.rate
            && m'.tx.taps == m.tx.taps && Counts(m'.tx.scr)
  {
    Quadrants(m);
    hide TrainingSymbol, Counts, Emit;
    EmitKeepsSide(m.tx, Wide(m), bits);
    TrainingKeepsSide(m);
  }

  lemma RoundKeepsSides(p: Pair, ka: nat, kb: nat, beat: Beat, maxA: nat, maxB: nat)
    requires Sides(p, maxA, maxB) && ka < 4 && kb < 4 && Good(beat)
    ensures Sides(Round(p, ka, kb, beat), maxA, maxB)
  {
    hide TxSymbol, Listen, WellFormed, Counts, KnownTaps;
    var bitsA, bitsB := Offered(p.a, beat.bitsA), Offered(p.b, beat.bitsB);
    RateKept(p.a, bitsA);
    RateKept(p.b, bitsB);
    SymbolKeepsSide(p.a, bitsA);
    SymbolKeepsSide(p.b, bitsB);
    ListenKeepsSide(TxSymbol(p.a, bitsA).0, TxSymbol(p.b, bitsB).1, ka, beat.noiseA);
    ListenKeepsSide(TxSymbol(p.b, bitsB).0, TxSymbol(p.a, bitsA).1, kb, beat.noiseB);
  }

  // ---- First phase: the answer tone ----

  datatype Setting = Setting(maxA: nat, maxB: nat, ka: nat, kb: nat) {
    predicate Valid() {
      ValidRate(maxA) && ValidRate(maxB) && ka < 4 && kb < 4
    }

    predicate Fast() {
      maxA == 2400 && maxB == 2400
    }
  }

  function Next(p: Pair, s: Setting, beat: Beat): (p': Pair)
    requires BothFormed(p) && s.Valid() && Good(beat)
    ensures BothFormed(p')
  {
    Round(p, s.ka, s.kb, beat)
  }

  /** The two halves of a round. */
  lemma Halves(p: Pair, s: Setting, beat: Beat)
    requires BothFormed(p) && s.Valid() && Good(beat)
    ensures var (a, fromA) := TxSymbol(p.a, Offered(p.a, beat.bitsA));
            var (b, fromB) := TxSymbol(p.b, Offered(p.b, beat.bitsB));
            && WellFormed(a) && WellFormed(b) && (fromA.Sent? ==> fromA.idx < 16) && (fromB.Sent? ==> fromB.idx < 16)
            && Next(p, s, beat) == Pair(Listen(a, fromB, s.ka, beat.noiseA), Listen(b, fromA, s.kb, beat.noiseB))
  {
    hide TxSymbol, Listen, WellFormed;
    RateKept(p.a, Offered(p.a, beat.bitsA));
    RateKept(p.b, Offered(p.b, beat.bitsB));
  }

  /** What a receiver with the right reference makes of a dibit. */
  lemma HearsDibit(m: Modem, quadrant: nat, dibit: nat, k: nat, noise: Complex)
    requires WellFormed(m) && m.rx.carrier && quadrant < 4 && dibit < 4 && k < 4 && Tolerable(true, noise)
    requires Refers(m.rx.last, quadrant, k)
    ensures var q := NextQuadrant(quadrant, dibit);
            var nearest := Decided(q, k);
            && nearest < 16 && Refers(nearest, q, k) && m.rx.last < 16
            && Listen(m, Sent(4 * q + 1), k, noise) == ProcessBaud(m, nearest)
            && DibitOf(m.rx.last, nearest) == RawBits(m.rx, nearest) == dibit
  {
    hide ProcessBaud, PhaseStep, WellFormed, NextQuadrant, Listen, Decided;
    HearsPoint(m, NextQuadrant(quadrant, dibit), k, noise);
    DibitRead(quadrant, dibit, k, m.rx.last);
  }

  /** Before anything has been sent. */
  predicate Mute(m: Modem) {
    m.tx.stage.InitialSilence? && m.tx.quadrant == 0 && m.tx.scr == Cleared()
  }

  /** Before anything has been heard. */
  predicate Deaf(m: Modem) {
    m.rx == ClearedRx(m.rx.taps) && m.rate == 0
  }

  predicate AnswerTone(m: Modem) {
    m.tx.stage.U11? && m.tx.scr == Cleared()
  }

  predicate Silent(p: Pair, i: nat) {
    && i < 45 && Mute(p.a) && p.a.tx.count == 0 && Deaf(p.a) && Mute(p.b) && p.b.tx.count == i && Deaf(p.b)
  }

  lemma NothingHeard(m: Modem, k: nat, noise: Complex)
    requires WellFormed(m) && Deaf(m) && k < 4
    ensures Listen(m, Silence, k, noise) == m
  {
  }

  lemma SilentRound(p: Pair, s: Setting, beat: Beat, i: nat)
    requires Sides(p, s.maxA, s.maxB) && s.Valid() && Good(beat) && Silent(p, i)
    ensures if i < 44 then Silent(Next(p, s, beat), i + 1) else CallerAcquires(Next(p, s, beat), s, 0)
  {
    hide TxSymbol, Listen, WellFormed, Counts, Next;
    Halves(p, s, beat);
    SilentSymbol(p.a, Offered(p.a, beat.bitsA));
    SilentSymbol(p.b, Offered(p.b, beat.bitsB));
    NothingHeard(TxSymbol(p.a, Offered(p.a, beat.bitsA)).0, s.ka, beat.noiseA);
    NothingHeard(TxSymbol(p.b, Offered(p.b, beat.bitsB)).0, s.kb, beat.noiseB);
  }

  /** A receiver in some stage with the carrier up, deciding among four points. */
  predicate Hearing(m: Modem, stage: RxStage, count: nat, rate: nat) {
    m.rx.stage == stage && m.rx.count == count && m.rate == rate && m.rx.carrier && !m.rx.sixteenWay
  }

  /** j bauds into acquisition. */
  predicate Acquiring(m: Modem, j: nat) {
    if j == 0 then Deaf(m) else Hearing(m, SymbolAcquisition, j, 1200)
  }

  predicate CallerAcquires(p: Pair, s: Setting, j: nat) {
    j < 40 && Mute(p.a) && p.a.tx.count == 0 && Acquiring(p.a, j) && AnswerTone(p.b) && Deaf(p.b)
  }

  /** One baud of acquisition; the last one takes the reference. */
  lemma AcquiresOne(m: Modem, quadrant: nat, k: nat, noise: Complex, j: nat)
    requires WellFormed(m) && quadrant < 4 && k < 4 && Tolerable(true, noise) && j < 40 && Acquiring(m, j)
    ensures var m' := Listen(m, Sent(4 * quadrant + 1), k, noise);
            && m'.tx == m.tx && m'.calling == m.calling && m'.maxRate == m.maxRate
            && if j < 39 then Acquiring(m', j + 1)
               else && Hearing(m', if m.calling then UnscrambledOnes else ScrambledOnesAt1200, 0, 1200)
                    && m'.rx.repeats == 0 && Refers(m'.rx.last, quadrant, k)
  {
    hide ProcessBaud, Listen, Decided, DibitOf;
    HearsPoint(m, quadrant, k, noise);
    var m1 := if m.rx.carrier then m else CarrierAppears(m);
    assert WellFormed(m1);
    AcquiringBaud(m1, Decided(quadrant, k));
  }

  /** A symbol of the answer tone. */
  lemma ToneSymbol(m: Modem, bits: seq<bool>)
    requires WellFormed(m) && |bits| == BitsPerSymbol(Wide(m)) && AnswerTone(m)
    ensures m.tx.quadrant < 4
    ensures var (m', out) := TxSymbol(m, bits);
            var q := NextQuadrant(m.tx.quadrant, 3);
            out == Sent(4 * q + 1) && m' == m.(tx := m.tx.(quadrant := q))
  {
    Quadrants(m);
    hide TxSymbol, NextQuadrant;
    SymbolOfU11(m, bits);
  }

  lemma CallerAcquiresOn(p: Pair, s: Setting, beat: Beat, j: nat)
    requires Sides(p, s.maxA, s.maxB) && s.Valid() && Good(beat) && CallerAcquires(p, s, j)
    ensures if j < 39 then CallerAcquires(Next(p, s, beat), s, j + 1) else CallerCounts(Next(p, s, beat), s, 0)
  {
    hide TxSymbol, Listen, WellFormed, Counts, Next, NextQuadrant, Refers, Acquiring, Deaf;
    Halves(p, s, beat);
    SilentSymbol(p.a, Offered(p.a, beat.bitsA));
    ToneSymbol(p.b, Offered(p.b, beat.bitsB));
    var (b, fromB) := TxSymbol(p.b, Offered(p.b, beat.bitsB));
    AcquiresOne(p.a, b.tx.quadrant, s.ka, beat.noiseA, j);
    assert Deaf(b) by {
      SameEars(p.b, b);
    }
    NothingHeard(b, s.kb, beat.noiseB);
  }

  lemma SameEars(m: Modem, m': Modem)
    requires Deaf(m) && m'.rx == m.rx && m'.rate == m.rate
    ensures Deaf(m')
  {
  }

  /** j unscrambled ones counted. */
  predicate CallerCounts(p: Pair, s: Setting, j: nat) {
    && j < 366 && Mute(p.a) && p.a.tx.count == 0 && AnswerTone(p.b) && Deaf(p.b)
    && Hearing(p.a, UnscrambledOnes, j, 1200) && Refers(p.a.rx.last, p.b.tx.quadrant, s.ka)
    && (j > 0 ==> p.a.rx.lastRaw == 3 && p.a.rx.repeats >= j - 1)
  }

  /** Waiting for the end of the answer tone. */
  predicate Sustained(a: Modem, b: Modem, k: nat) {
    && a.rx.stage.UnscrambledOnesSustaining? && a.rx.lastRaw == 3 && Refers(a.rx.last, b.tx.quadrant, k)
    && a.rate == 1200 && a.rx.carrier && !a.rx.sixteenWay
  }

  lemma CallerCountsOn(p: Pair, s: Setting, beat: Beat, j: nat)
    requires Sides(p, s.maxA, s.maxB) && s.Valid() && Good(beat) && CallerCounts(p, s, j)
    ensures if j < 365 then CallerCounts(Next(p, s, beat), s, j + 1) else AnswererAcquires(Next(p, s, beat), s, 0)
  {
    hide TxSymbol, Listen, WellFormed, Counts, Next, NextQuadrant, Refers, Deaf, ProcessBaud, Decided, DibitOf, RawBits;
    Halves(p, s, beat);
    SilentSymbol(p.a, Offered(p.a, beat.bitsA));
    ToneSymbol(p.b, Offered(p.b, beat.bitsB));
    var (b, fromB) := TxSymbol(p.b, Offered(p.b, beat.bitsB));
    HearsDibit(p.a, p.b.tx.quadrant, 3, s.ka, beat.noiseA);
    UnscrambledBaud(p.a, Decided(b.tx.quadrant, s.ka));
    assert Deaf(b) by {
      SameEars(p.b, b);
    }
    NothingHeard(b, s.kb, beat.noiseB);
    assert LawfulTo(p.a.tx.taps, p.a.tx.scr.reg, 0);
  }

  // ---- Second phase: the caller answers the tone ----

  /** The caller's S1 and then its scrambled ones, or these at once; j symbols of either have gone. */
  predicate CallerReplies(a: Modem, s: Setting, j: nat) {
    if s.maxA == 2400 then
      && a.tx.scr == Cleared()
      && if j < 60 then a.tx.stage.U0011? && a.tx.count == j else a.tx.stage.S11? && j == 60
    else
      && a.tx.stage.S11? && KnownTaps(a.tx.taps) && LawfulTo(a.tx.taps, a.tx.scr.reg, if j < 2 then 2 * j else 4)
  }

  predicate AnswererAcquires(p: Pair, s: Setting, j: nat) {
    && j < 40 && Sustained(p.a, p.b, s.ka) && CallerReplies(p.a, s, j) && AnswerTone(p.b) && Acquiring(p.b, j)
  }

  /** A symbol of it. */
  lemma ReplySymbol(m: Modem, bits: seq<bool>, s: Setting, j: nat) returns (dibit: nat)
    requires WellFormed(m) && |bits| == BitsPerSymbol(Wide(m)) && s.Valid() && m.calling && Counts(m.tx.scr)
    requires KnownTaps(m.tx.taps) && CallerReplies(m, s, j) && (s.maxA == 2400 ==> j < 60)
    ensures dibit < 4 && m.tx.quadrant < 4 && (s.maxA == 2400 ==> dibit == S1Dibit(j))
    ensures var (m', out) := TxSymbol(m, bits);
            && out == Sent(4 * NextQuadrant(m.tx.quadrant, dibit) + 1)
            && m' == m.(tx := m'.tx) && m'.tx.quadrant == NextQuadrant(m.tx.quadrant, dibit)
            && m'.tx.taps == m.tx.taps && CallerReplies(m', s, j + 1)
            && (s.maxA == 1200 ==> var two := TwoOnes(m.tx.taps, m.tx.scr);
                                   m'.tx.scr == two.0 && dibit == Dibit(two.1, two.2))
  {
    Quadrants(m);
    if s.maxA == 2400 {
      hide TxSymbol, NextQuadrant, TwoOnes;
      dibit := S1Dibit(j);
      SymbolOfS1(m, bits);
    } else {
      hide TxSymbol, NextQuadrant, TwoOnes, Counts;
      var two := TwoOnes(m.tx.taps, m.tx.scr);
      dibit := Dibit(two.1, two.2);
      OnesSymbol(m, bits);
      SymbolIsLawful(m.tx.taps, m.tx.scr, if j < 2 then 2 * j else 4);
    }
  }

  /** The caller goes on waiting while the answer tone lasts. */
  lemma SustainsOne(m: Modem, b: Modem, b': Modem, k: nat, noise: Complex)
    requires WellFormed(m) && k < 4 && Tolerable(true, noise) && Sustained(m, b, k) && b.tx.quadrant < 4
    requires b'.tx.quadrant == NextQuadrant(b.tx.quadrant, 3)
    ensures var m' := Listen(m, Sent(4 * b'.tx.quadrant + 1), k, noise);
            m' == m.(rx := m'.rx) && Sustained(m', b', k)
  {
    hide Listen, ProcessBaud, WellFormed, NextQuadrant, Refers, Decided, DibitOf, RawBits;
    HearsDibit(m, b.tx.quadrant, 3, k, noise);
    SustainedBaud(m, Decided(b'.tx.quadrant, k));
  }

  lemma StillSustained(a: Modem, b: Modem, b': Modem, k: nat)
    requires Sustained(a, b, k) && b'.tx.quadrant == b.tx.quadrant
    ensures Sustained(a, b', k)
  {
  }

  lemma StillReplies(a: Modem, a': Modem, s: Setting, j: nat)
    requires CallerReplies(a, s, j) && a'.tx == a.tx
    ensures CallerReplies(a', s, j)
  {
  }

  lemma AnswererAcquiresOn(p: Pair, s: Setting, beat: Beat, j: nat)
    requires Sides(p, s.maxA, s.maxB) && s.Valid() && Good(beat) && AnswererAcquires(p, s, j)
    ensures if j < 39 then AnswererAcquires(Next(p, s, beat), s, j + 1)
            else if s.Fast() then HearsS1(Next(p, s, beat), s, 0) else AnswererSearches(Next(p, s, beat), s, 0)
  {
    hide TxSymbol, Listen, WellFormed, Counts, Next, NextQuadrant, Refers, Acquiring, TwoOnes, CallerReplies, KnownTaps;
    hide Sustained;
    Halves(p, s, beat);
    var dibit := ReplySymbol(p.a, Offered(p.a, beat.bitsA), s, j);
    ToneSymbol(p.b, Offered(p.b, beat.bitsB));
    var a, b := TxSymbol(p.a, Offered(p.a, beat.bitsA)).0, TxSymbol(p.b, Offered(p.b, beat.bitsB)).0;
    SameSustained(p.a, a, p.b, s.ka);
    SustainsOne(a, p.b, b, s.ka, beat.noiseA);
    SameAcquiring(p.b, b, j);
    AcquiresOne(b, a.tx.quadrant, s.kb, beat.noiseB, j);
    var p' := Next(p, s, beat);
    StillSustained(p'.a, b, p'.b, s.ka);
    StillReplies(a, p'.a, s, j + 1);
    if j == 39 && !s.Fast() && s.maxA == 1200 {
      assert CallerReplies(p'.a, s, 40);
      RepliesLawfully(p'.a, s, 40);
    }
  }

  lemma SameSustained(a: Modem, a': Modem, b: Modem, k: nat)
    requires Sustained(a, b, k) && a'.rx == a.rx && a'.rate == a.rate
    ensures Sustained(a', b, k)
  {
  }

  lemma SameAcquiring(m: Modem, m': Modem, j: nat)
    requires Acquiring(m, j) && m'.rx == m.rx && m'.rate == m.rate
    ensures Acquiring(m', j)
  {
  }

  lemma RepliesLawfully(a: Modem, s: Setting, j: nat)
    requires s.maxA == 1200 && CallerReplies(a, s, j) && j >= 2
    ensures a.tx.stage.S11? && KnownTaps(a.tx.taps) && LawfulTo(a.tx.taps, a.tx.scr.reg, 4)
  {
  }

  // ---- Third phase, both ends capable of 2400 bit/s: S1 goes and comes ----

  predicate Referenced(r: Modem, t: Modem, k: nat) {
    Refers(r.rx.last, t.tx.quadrant, k)
  }

  /** j symbols of the caller's S1 heard in the search. */
  predicate HearsS1(p: Pair, s: Setting, j: nat) {
    && j <= 20 && s.Fast() && Sustained(p.a, p.b, s.ka) && CallerReplies(p.a, s, 40 + j) && AnswerTone(p.b)
    && Hearing(p.b, ScrambledOnesAt1200, j, 1200) && Referenced(p.b, p.a, s.kb)
    && (if j == 0 then p.b.rx.repeats == 0
        else p.b.rx.repeats >= j - 1 && p.b.rx.lastRaw == S1Dibit(39 + j))
  }

  /** What the scrambler has sent shows in the receiver's count of alternations. */
  predicate Following(reg: Register, rx: RxState, heard: nat) {
    && (if heard == 0 then rx.repeats == 0 else rx.lastRaw == DibitInRegister(reg, 0))
    && AlternatingDibits(reg, rx.repeats)
  }

  /** j bauds into a search that is going to find nothing. */
  predicate AnswererSearches(p: Pair, s: Setting, j: nat) {
    && j < 162 && !s.Fast() && Sustained(p.a, p.b, s.ka) && AnswerTone(p.b)
    && Hearing(p.b, ScrambledOnesAt1200, j, 1200) && Referenced(p.b, p.a, s.kb)
    && (if s.maxA == 2400 then (if j <= 20 then CallerReplies(p.a, s, 40 + j) else p.a.tx.stage.S11?)
        else CallerReplies(p.a, s, 40) && Following(p.a.tx.scr.reg, p.b.rx, j))
  }

  /** A baud of the search that goes on. */
  lemma SearchesOne(m: Modem, quadrant: nat, dibit: nat, k: nat, noise: Complex, left: nat)
    requires WellFormed(m) && quadrant < 4 && dibit < 4 && k < 4 && Tolerable(true, noise)
    requires Searching(m, left) && left > 0 && m.rx.carrier && !m.rx.sixteenWay && Refers(m.rx.last, quadrant, k)
    requires m.maxRate == 2400 ==>
               m.rx.repeats < 15 || dibit == 3 - m.rx.lastRaw || m.rx.lastRaw == 1 || m.rx.lastRaw == 2
    ensures var q := NextQuadrant(quadrant, dibit);
            var m' := Listen(m, Sent(4 * q + 1), k, noise);
            && m' == m.(rx := m'.rx) && Hearing(m', ScrambledOnesAt1200, m.rx.count + 1, 1200)
            && Refers(m'.rx.last, q, k) && m'.rx.lastRaw == dibit
            && m'.rx.repeats == if dibit == 3 - m.rx.lastRaw then m.rx.repeats + 1 else 0
  {
    HearsDibit(m, quadrant, dibit, k, noise);
    hide Listen, ProcessBaud, WellFormed, NextQuadrant, Refers, Decided, DibitOf, RawBits, DecodeSymbol;
    SearchBaud(m, Decided(NextQuadrant(quadrant, dibit), k), left);
  }

  /** The baud that ends S1. */
  lemma EndsS1(m: Modem, quadrant: nat, dibit: nat, k: nat, noise: Complex, left: nat)
    requires WellFormed(m) && quadrant < 4 && dibit < 4 && k < 4 && Tolerable(true, noise) && m.maxRate == 2400
    requires Searching(m, left) && left > 0 && m.rx.carrier && !m.rx.sixteenWay && Refers(m.rx.last, quadrant, k)
    requires m.rx.repeats >= 15 && m.rx.lastRaw == 3 && dibit == 3
    ensures var q := NextQuadrant(quadrant, dibit);
            var m' := Listen(m, Sent(4 * q + 1), k, noise);
            && Hearing(m', ScrambledOnesAt1200, m.rx.count + 1, 2400) && Refers(m'.rx.last, q, k)
            && m'.calling == m.calling
            && m'.tx == (if m.calling then m.tx else m.tx.(count := 0, stage := U0011))
  {
    HearsDibit(m, quadrant, dibit, k, noise);
    hide Listen, ProcessBaud, WellFormed, NextQuadrant, Refers, Decided, DibitOf, RawBits, DecodeSymbol;
    S1Baud(m, Decided(NextQuadrant(quadrant, dibit), k), left);
  }

  /** The first dibit of scrambled ones from a cleared register is 11. */
  lemma FirstDibit(m: Modem, bits: seq<bool>)
    requires WellFormed(m) && |bits| == BitsPerSymbol(Wide(m)) && m.tx.scr == Cleared() && KnownTaps(m.tx.taps)
    requires m.tx.stage.S11? || (m.tx.stage.TimedS11? && m.tx.count < 452)
    ensures m.tx.quadrant < 4
    ensures var (m', out) := TxSymbol(m, bits);
            var q := NextQuadrant(m.tx.quadrant, 3);
            && out == Sent(4 * q + 1) && m'.tx.quadrant == q
            && m' == m.(tx := m.tx.(scr := m'.tx.scr, quadrant := q,
                                    count := if m.tx.stage.S11? then m.tx.count else m.tx.count + 1))
  {
    hide TxSymbol, NextQuadrant, TwoOnes, Counts, FreshOnes;
    OnesSymbol(m, bits);
    FreshFromCleared();
    FreshDibit(m.tx.taps, m.tx.scr, 0);
  }

  lemma HearsS1On(p: Pair, s: Setting, beat: Beat, j: nat)
    requires Sides(p, s.maxA, s.maxB) && s.Valid() && Good(beat) && HearsS1(p, s, j)
    ensures if j < 20 then HearsS1(Next(p, s, beat), s, j + 1) else AnswererReplies(Next(p, s, beat), s, 0)
  {
    hide TxSymbol, Listen, WellFormed, Counts, Next, NextQuadrant, Refers, TwoOnes, KnownTaps, Sustained, S1Dibit;
    Halves(p, s, beat);
    ToneSymbol(p.b, Offered(p.b, beat.bitsB));
    var a, b := TxSymbol(p.a, Offered(p.a, beat.bitsA)).0, TxSymbol(p.b, Offered(p.b, beat.bitsB)).0;
    var p' := Next(p, s, beat);
    if j < 20 {
      var dibit := ReplySymbol(p.a, Offered(p.a, beat.bitsA), s, 40 + j);
      S1DibitsAlternate(39 + j);
      SearchesOne(b, p.a.tx.quadrant, dibit, s.kb, beat.noiseB, 161 - j);
    } else {
      FirstDibit(p.a, Offered(p.a, beat.bitsA));
      LastS1Dibit();
      EndsS1(b, p.a.tx.quadrant, 3, s.kb, beat.noiseB, 161 - j);
    }
    SameSustained(p.a, a, p.b, s.ka);
    SustainsOne(a, p.b, b, s.ka, beat.noiseA);
    ListenKeepsSide(b, TxSymbol(p.a, Offered(p.a, beat.bitsA)).1, s.kb, beat.noiseB);
    StillSustained(p'.a, b, p'.b, s.ka);
  }

  lemma LastS1Dibit()
    ensures S1Dibit(0) == 0 && S1Dibit(59) == 3
  {
  }

  /** i symbols of the answerer's own S1 have gone, and the caller is in its timed segment as soon as it has heard
      one. */
  predicate AnswererReplies(p: Pair, s: Setting, i: nat) {
    && i <= 60 && s.Fast() && Hearing(p.b, ScrambledOnesAt1200, 21 + i, 2400) && Referenced(p.b, p.a, s.kb)
    && p.b.tx.scr == Cleared()
    && (if i < 60 then p.b.tx.stage.U0011? && p.b.tx.count == i else p.b.tx.stage.TimedS11? && p.b.tx.count == 153)
    && if i == 0 then Sustained(p.a, p.b, s.ka) && p.a.tx.stage.S11?
       else
         && p.a.tx.stage.TimedS11? && p.a.tx.count == i - 1
         && Hearing(p.a, ScrambledOnesAt1200, i - 1, 1200) && Referenced(p.a, p.b, s.ka)
         && p.a.rx.lastRaw == S1Dibit(i - 1) && p.a.rx.repeats >= i - 1
  }

  /** The first 00 of the answerer's S1 ends the caller's wait. */
  lemma WaitEnds(m: Modem, quadrant: nat, dibit: nat, k: nat, noise: Complex)
    requires WellFormed(m) && quadrant < 4 && dibit < 4 && k < 4 && Tolerable(true, noise)
    requires m.rx.stage.UnscrambledOnesSustaining? && m.rx.lastRaw == 3 && Refers(m.rx.last, quadrant, k)
    requires m.rate == 1200 && m.rx.carrier && !m.rx.sixteenWay && dibit != 3
    ensures var q := NextQuadrant(quadrant, dibit);
            var m' := Listen(m, Sent(4 * q + 1), k, noise);
            && Hearing(m', ScrambledOnesAt1200, 0, 1200) && Refers(m'.rx.last, q, k)
            && m'.rx.lastRaw == dibit && m'.rx.repeats == 0 && m'.tx == m.tx.(count := 0, stage := TimedS11)
  {
    HearsDibit(m, quadrant, dibit, k, noise);
    hide Listen, ProcessBaud, WellFormed, NextQuadrant, Refers, Decided, DibitOf, RawBits, DecodeSymbol;
    SustainedBaud(m, Decided(NextQuadrant(quadrant, dibit), k));
  }

  /** With 2400 bit/s negotiated the receiver counts. */
  lemma CountsOne(m: Modem, quadrant: nat, k: nat, noise: Complex, count: nat)
    requires WellFormed(m) && quadrant < 4 && k < 4 && Tolerable(true, noise)
    requires Hearing(m, ScrambledOnesAt1200, count, 2400)
    ensures var m' := Listen(m, Sent(4 * quadrant + 1), k, noise);
            && m' == m.(rx := m'.rx) && Refers(m'.rx.last, quadrant, k)
            && if count + 1 < (if m.calling then 330 else 270) then Hearing(m', ScrambledOnesAt1200, count + 1, 2400)
               else m'.rx.stage.WaitForScrambledOnesAt2400? && m'.rx.sixteenWay && m'.rx.carrier && m'.rx.repeats == 0
  {
    hide Listen, ProcessBaud, WellFormed, Refers, Decided, DecodeSymbol;
    HearsPoint(m, quadrant, k, noise);
    ReferenceRange(Decided(quadrant, k), quadrant, k);
    NegotiatedBaud(m, Decided(quadrant, k));
  }

  lemma AnswererRepliesOn(p: Pair, s: Setting, beat: Beat, i: nat)
    requires Sides(p, s.maxA, s.maxB) && s.Valid() && Good(beat) && AnswererReplies(p, s, i)
    ensures if i < 60 then AnswererReplies(Next(p, s, beat), s, i + 1) else BothFast(Next(p, s, beat), s, 0)
  {
    hide TxSymbol, Listen, WellFormed, Counts, Next, NextQuadrant, Refers, TwoOnes, KnownTaps, Sustained, S1Dibit;
    Halves(p, s, beat);
    var bitsA, bitsB := Offered(p.a, beat.bitsA), Offered(p.b, beat.bitsB);
    OnesSymbol(p.a, bitsA);
    var a, b := TxSymbol(p.a, bitsA).0, TxSymbol(p.b, bitsB).0;
    Quadrants(p.b);
    var dibit := if i < 60 then S1Dibit(i) else 3;
    if i < 60 {
      SymbolOfS1(p.b, bitsB);
    } else {
      FirstDibit(p.b, bitsB);
    }
    CountsOne(b, a.tx.quadrant, s.kb, beat.noiseB, 21 + i);
    LastS1Dibit();
    if i == 0 {
      SustainedParts(p.a, p.b, s.ka);
      WaitEnds(a, p.b.tx.quadrant, dibit, s.ka, beat.noiseA);
    } else if i < 60 {
      S1DibitsAlternate(i - 1);
      SearchesOne(a, p.b.tx.quadrant, dibit, s.ka, beat.noiseA, 162 - i);
    } else {
      EndsS1(a, p.b.tx.quadrant, dibit, s.ka, beat.noiseA, 162 - i);
    }
  }

  lemma SustainedParts(a: Modem, b: Modem, k: nat)
    requires Sustained(a, b, k)
    ensures a.rx.stage.UnscrambledOnesSustaining? && a.rx.lastRaw == 3 && Refers(a.rx.last, b.tx.quadrant, k)
    ensures a.rate == 1200 && a.rx.carrier && !a.rx.sixteenWay
  {
  }

  // ---- Fourth phase: 2400 bit/s training on both sides ----

  /** So many symbols before its data: the timed segment first, then 120 symbols at four bits each. */
  predicate FastTx(m: Modem, left: int) {
    && m.rate == 2400
    && if left > 120 then left <= 573 && m.tx.stage.TimedS11? && m.tx.count == 573 - left
       else if left > 0 then m.tx.stage.S1111? && m.tx.count == 120 - left
       else m.tx.stage.TxNormal?
  }

  /** The registers agree on all line bits of i wide symbols, and so do the guard counters, or else the line has been
      all ones for as long. */
  predicate Agreeing(i: nat, tx: Scrambler, rx: Scrambler) {
    Agree(if i < 8 then 4 * i else 32, false, tx, rx) && (tx.ones == rx.ones || tx.ones >= 4 * i)
  }

  /** The receiver, so many bauds before it decides among 16 points, or finding synchronism, or in data; the far end has
      so many symbols to go before its data. */
  predicate FastRx(m: Modem, t: Modem, k: nat, left: int, farLeft: int) {
    && m.rate == 2400
    && if left > 0 then
         && left <= (if m.calling then 330 else 270)
         && Hearing(m, ScrambledOnesAt1200, (if m.calling then 330 else 270) - left, 2400) && Referenced(m, t, k)
       else
         && m.rx.carrier && m.rx.sixteenWay
         && (m.rx.stage.RxNormal? || (m.rx.stage.WaitForScrambledOnesAt2400? && Locking(m, t, k, farLeft)))
  }

  predicate Locking(m: Modem, t: Modem, k: nat, farLeft: int) {
    && m.rx.repeats < 9 && Referenced(m, t, k) && farLeft > 94
    && (farLeft <= 120 ==>
          var i := 120 - farLeft;
          Agreeing(i, t.tx.scr, m.rx.scr) && (i > 17 ==> m.rx.repeats >= i - 17))
  }

  predicate BothFast(p: Pair, s: Setting, j: nat) {
    && FastTx(p.a, 513 - j) && FastTx(p.b, 419 - j)
    && FastRx(p.a, p.b, s.ka, 270 - j, 419 - j) && FastRx(p.b, p.a, s.kb, 188 - j, 513 - j)
  }

  /** One symbol of the fast training. */
  lemma FastSymbol(m: Modem, bits: seq<bool>, left: int)
    requires WellFormed(m) && |bits| == BitsPerSymbol(Wide(m)) && FastTx(m, left)
    ensures m.tx.taps.Valid() && m.tx.quadrant < 4
    ensures var (m', out) := TxSymbol(m, bits);
            && FastTx(m', left - 1) && m' == m.(tx := m'.tx) && m'.tx.taps == m.tx.taps
            && out.Sent? && out.idx < 16 && m'.tx.quadrant < 4
            && (left > 120 ==> out.idx == 4 * m'.tx.quadrant + 1)
            && (0 < left <= 120 ==>
                  var sent := SendSymbol(m.tx.taps, true, SenderOf(m), Ones(4));
                  out.idx == sent.1 && SenderOf(m') == sent.0)
  {
    Quadrants(m);
    hide TxSymbol, SendSymbol, TwoOnes, NextQuadrant;
    if left > 120 {
      OnesSymbol(m, bits);
    } else if left > 0 {
      WideSymbol(m, bits);
    } else {
      DataSymbol(m, bits);
    }
    Quadrants(TxSymbol(m, bits).0);
  }

  lemma CountersToo(n: nat, counted: bool, tx: Scrambler, rx: Scrambler)
    ensures Agree(n, counted, tx, rx) <==> Agree(n, false, tx, rx) && (counted ==> tx.ones == rx.ones)
  {
  }

  /** Four scrambled ones more: agreement grows, and from the 17th symbol on they decode to ones. */
  lemma AgreesFurther(t: Taps, tx: Scrambler, rx: Scrambler, i: nat)
    requires KnownTaps(t) && Counts(tx) && Agreeing(i, tx, rx)
    ensures var (tx', line) := ScrambleRun(t, tx, Ones(4));
            Agreeing(i + 1, tx', DescrambleRun(t, rx, line).0)
            && (i >= 17 ==> DescrambleRun(t, rx, line).1 == Ones(4))
  {
    assert tx.ones <= 64 && t.tap2 < 32;
    hide Agree, ScrambleRun, DescrambleRun, Counts;
    var n := if i < 8 then 4 * i else 32;
    var (tx', line) := ScrambleRun(t, tx, Ones(4));
    var rx' := DescrambleRun(t, rx, line).0;
    var counted := tx.ones == rx.ones;
    CountersToo(n, counted, tx, rx);
    AgreementAfterRun(t, n, counted, tx, rx, Ones(4));
    CountersToo(if i < 7 then 4 * i + 4 else 32, counted || false in line, tx', rx');
    if i >= 17 {
      DescrambleUndoesScramble(t, n, tx, rx, Ones(4));
    }
    if !counted && false !in line {
      OnesAddUp(t, tx, Ones(4));
    }
  }

  /** If the line stays at one throughout, the counter has counted it. */
  lemma {:induction false} OnesAddUp(t: Taps, st: Scrambler, bits: seq<bool>)
    requires t.Valid() && Counts(st) && (forall i | 0 <= i < |bits| :: bits[i])
    requires false !in ScrambleRun(t, st, bits).1
    ensures ScrambleRun(t, st, bits).0.ones == st.ones + |bits|
    decreases |bits|
  {
    if bits != [] {
      CountsKept(t, st, true);
      var (st1, out) := ScrambleBit(t, st, true);
      var rest := ScrambleRun(t, st1, bits[1..]).1;
      assert ScrambleRun(t, st, bits).1 == [out] + rest;
      assert out && false !in rest;
      if GuardDue(st) {
        GuardInverts(t, st, true);
        assert false;
      }
      OnesAddUp(t, st1, bits[1..]);
    }
  }

  /** A receiver with the right reference descrambles exactly the line bits of a wide symbol. */
  lemma WideDecoded(t: Taps, tx: Sender, rx: RxState, k: nat, bits: seq<bool>)
    requires t.Valid() && rx.taps == t && rx.sixteenWay && tx.quadrant < 4 && k < 4 && |bits| == 4
    requires Refers(rx.last, tx.quadrant, k)
    ensures rx.last < 16
    ensures var (sender, idx) := SendSymbol(t, true, tx, bits);
            var (scr, line) := ScrambleRun(t, tx.scr, bits);
            var nearest, d := (idx + 4 * k) % 16, DescrambleRun(t, rx.scr, line);
            && sender.scr == scr && Refers(nearest, sender.quadrant, k)
            && DecodeBaud(rx, nearest) == (rx.(scr := d.0, last := nearest), d.1)
  {
    hide *;
    FourBits();
    ReferenceParts(rx.last, tx.quadrant, k);
    var line := ScrambleRun(t, tx.scr, bits).1;
    WideSent(t, tx, bits);
    WideReference(tx.quadrant, line, k);
    var nearest := (MapSymbol(true, tx.quadrant, line) + 4 * k) % 16;
    SymbolRoundTrip(true, k, tx.quadrant, rx.last, line);
    WideDecodeSymbol(t, Receiver(rx.scr, rx.last), nearest);
    BaudDecodes(rx, nearest);
  }

  lemma FourBits()
    ensures BitsPerSymbol(true) == 4 && Ones(4) == [true, true, true, true]
  {
  }

  lemma ReferenceParts(last: nat, quadrant: nat, k: nat)
    requires Refers(last, quadrant, k)
    ensures last < 16 && last / 4 == (quadrant + k) % 4
  {
  }

  lemma BaudDecodes(rx: RxState, nearest: nat)
    requires rx.taps.Valid() && rx.last < 16 && nearest < 16
    ensures var d := DecodeSymbol(rx.taps, rx.sixteenWay, Receiver(rx.scr, rx.last), nearest);
            DecodeBaud(rx, nearest) == (rx.(scr := d.0.scr, last := nearest), d.1)
  {
    hide DecodeSymbol;
  }

  lemma WideSent(t: Taps, tx: Sender, bits: seq<bool>)
    requires t.Valid() && tx.quadrant < 4 && |bits| == 4
    ensures var (scr, line) := ScrambleRun(t, tx.scr, bits);
            var idx := MapSymbol(true, tx.quadrant, line);
            SendSymbol(t, true, tx, bits) == (Sender(scr, idx / 4), idx)
  {
    hide ScrambleRun, MapSymbol;
  }

  lemma WideDecodeSymbol(t: Taps, rx: Receiver, nearest: nat)
    requires t.Valid() && rx.last < 16 && nearest < 16
    ensures var d := DescrambleRun(t, rx.scr, UnmapSymbol(true, rx.last, nearest));
            DecodeSymbol(t, true, rx, nearest) == (Receiver(d.0, nearest), d.1)
  {
    hide DescrambleRun, UnmapSymbol;
  }

  lemma WideReference(quadrant: nat, line: seq<bool>, k: nat)
    requires quadrant < 4 && k < 4 && |line| == 4
    ensures var idx := MapSymbol(true, quadrant, line);
            Refers((idx + 4 * k) % 16, idx / 4, k)
  {
    SymbolTurned(true, k, quadrant, line);
  }

  lemma SenderIs(m: Modem)
    ensures SenderOf(m).scr == m.tx.scr && SenderOf(m).quadrant == m.tx.quadrant
  {
  }

  lemma ReferencedIs(r: Modem, t: Modem, k: nat)
    ensures Referenced(r, t, k) == Refers(r.rx.last, t.tx.quadrant, k)
  {
  }

  /** A wide symbol of ones in a waiting receiver. */
  lemma WaitsOne(m: Modem, t: Modem, k: nat, i: nat)
    requires WellFormed(m) && m.rx.stage.WaitForScrambledOnesAt2400? && m.rx.sixteenWay && k < 4
    requires WellFormed(t) && KnownTaps(t.tx.taps) && m.rx.taps == t.tx.taps && Counts(t.tx.scr)
    requires Referenced(m, t, k) && Agreeing(i, t.tx.scr, m.rx.scr)
    ensures t.tx.quadrant < 4 && m.rx.last < 16
    ensures var (sender, idx) := SendSymbol(t.tx.taps, true, SenderOf(t), Ones(4));
            var nearest := (idx + 4 * k) % 16;
            var d := DecodeBaud(m.rx, nearest);
            && Refers(nearest, sender.quadrant, k) && Agreeing(i + 1, sender.scr, d.0.scr)
            && (i >= 17 ==> d.1 == [true, true, true, true])
  {
    hide *;
    FourBits();
    Quadrants(t);
    Quadrants(m);
    SenderIs(t);
    ReferencedIs(m, t, k);
    WideDecoded(t.tx.taps, SenderOf(t), m.rx, k, Ones(4));
    AgreesFurther(t.tx.taps, t.tx.scr, m.rx.scr, i);
  }

  lemma NormalListens(m: Modem, idx: nat, k: nat, noise: Complex)
    requires WellFormed(m) && m.rx.carrier && m.rx.stage.RxNormal? && idx < 16 && k < 4 && Tolerable(true, noise)
    ensures var m' := Listen(m, Sent(idx), k, noise);
            && m' == m.(rx := m'.rx) && m'.rx.carrier && m'.rx.stage.RxNormal? && m'.rx.sixteenWay == m.rx.sixteenWay
  {
    hide ProcessBaud, SliceOf, Point, Rotate, Plus, WellFormed;
    NormalBaudKept(m, SliceOf(m.rx.sixteenWay, Plus(Rotate(k, Point(idx)), noise)));
  }

  lemma NormalBaudKept(m: Modem, nearest: nat)
    requires WellFormed(m) && m.rx.stage.RxNormal? && nearest < 16
    ensures var m' := ProcessBaud(m, nearest);
            && m' == m.(rx := m'.rx) && m'.rx.stage.RxNormal? && m'.rx.carrier == m.rx.carrier
            && m'.rx.sixteenWay == m.rx.sixteenWay
  {
    hide PhaseStep, DecodeSymbol;
  }

  /** While the far end is still in its timed segment, its symbols are points of the smaller constellation. */
  lemma FastListensNarrow(m: Modem, t: Modem, t': Modem, k: nat, noise: Complex, left: int, farLeft: int)
    requires WellFormed(m) && k < 4 && Tolerable(true, noise) && FastRx(m, t, k, left, farLeft) && farLeft > 120
    requires t'.tx.quadrant < 4
    ensures var m' := Listen(m, Sent(4 * t'.tx.quadrant + 1), k, noise);
            m' == m.(rx := m'.rx) && FastRx(m', t', k, left - 1, farLeft - 1)
  {
    hide ProcessBaud, Listen, WellFormed, Refers, Decided, Agree, DecodeBaud;
    if left > 0 {
      CountsOne(m, t'.tx.quadrant, k, noise, (if m.calling then 330 else 270) - left);
      NothingAgreed(t'.tx.scr, Listen(m, Sent(4 * t'.tx.quadrant + 1), k, noise).rx.scr);
    } else if m.rx.stage.RxNormal? {
      NormalListens(m, 4 * t'.tx.quadrant + 1, k, noise);
    } else {
      var nearest := Decided(t'.tx.quadrant, k);
      HearsPoint(m, t'.tx.quadrant, k, noise);
      ReferenceRange(nearest, t'.tx.quadrant, k);
      WaitBaud(m, nearest);
      Quadrants(m);
      WaitLast(m.rx, nearest);
      NothingAgreed(t'.tx.scr, ProcessBaud(m, nearest).rx.scr);
    }
  }

  lemma WaitLast(rx: RxState, nearest: nat)
    requires rx.taps.Valid() && rx.last < 16 && nearest < 16
    ensures DecodeBaud(rx, nearest).0.last == nearest && DecodeBaud(rx, nearest).0.carrier == rx.carrier
    ensures DecodeBaud(rx, nearest).0.sixteenWay == rx.sixteenWay
  {
  }

  lemma NothingAgreed(tx: Scrambler, rx: Scrambler)
    ensures Agreeing(0, tx, rx)
  {
  }

  /** In the wide segment the receiver finds synchronism, and is in data after 26 symbols at the latest. */
  lemma FastListensWide(m: Modem, t: Modem, t': Modem, k: nat, noise: Complex, left: int, farLeft: int)
    requires WellFormed(m) && k < 4 && Tolerable(true, noise) && FastRx(m, t, k, left, farLeft) && left <= 0
    requires WellFormed(t) && KnownTaps(t.tx.taps) && m.rx.taps == t.tx.taps && Counts(t.tx.scr)
    requires 0 < farLeft <= 120
    requires t.tx.quadrant < 4 && SenderOf(t') == SendSymbol(t.tx.taps, true, SenderOf(t), Ones(4)).0
    ensures var idx := SendSymbol(t.tx.taps, true, SenderOf(t), Ones(4)).1;
            var m' := Listen(m, Sent(idx), k, noise);
            idx < 16 && m' == m.(rx := m'.rx) && FastRx(m', t', k, left - 1, farLeft - 1)
  {
    hide ProcessBaud, Listen, WellFormed, Refers, DecodeBaud, Agreeing, SendSymbol, KnownTaps, Counts;
    var (sender, idx) := SendSymbol(t.tx.taps, true, SenderOf(t), Ones(4));
    if m.rx.stage.RxNormal? {
      NormalListens(m, idx, k, noise);
    } else {
      var i, nearest := 120 - farLeft, (idx + 4 * k) % 16;
      WaitsOne(m, t, k, i);
      HearsWide(m, idx, k, noise);
      WaitBaud(m, nearest);
      Quadrants(m);
      WaitLast(m.rx, nearest);
    }
  }

  lemma FastListens(m: Modem, t: Modem, t': Modem, out: nat, k: nat, noise: Complex, left: int, farLeft: int)
    requires WellFormed(m) && k < 4 && Tolerable(true, noise) && FastRx(m, t, k, left, farLeft)
    requires left > 0 ==> farLeft > 120
    requires WellFormed(t) && KnownTaps(t.tx.taps) && m.rx.taps == t.tx.taps && Counts(t.tx.scr)
    requires t.tx.quadrant < 4 && t'.tx.quadrant < 4 && out < 16
    requires farLeft > 120 ==> out == 4 * t'.tx.quadrant + 1
    requires 0 < farLeft <= 120 ==>
               var sent := SendSymbol(t.tx.taps, true, SenderOf(t), Ones(4)); out == sent.1 && SenderOf(t') == sent.0
    ensures var m' := Listen(m, Sent(out), k, noise);
            m' == m.(rx := m'.rx) && FastRx(m', t', k, left - 1, farLeft - 1)
  {
    hide Listen, WellFormed, Refers, SendSymbol, KnownTaps, Counts, SenderOf;
    if farLeft > 120 {
      FastListensNarrow(m, t, t', k, noise, left, farLeft);
    } else if farLeft > 0 {
      FastListensWide(m, t, t', k, noise, left, farLeft);
    } else {
      NormalListens(m, out, k, noise);
    }
  }

  lemma SameFastRx(m: Modem, m': Modem, t: Modem, t': Modem, k: nat, left: int, farLeft: int)
    requires FastRx(m, t, k, left, farLeft) && m'.rx == m.rx && m'.rate == m.rate && m'.calling == m.calling
    requires t'.tx.quadrant == t.tx.quadrant && t'.tx.scr == t.tx.scr
    ensures FastRx(m', t', k, left, farLeft)
  {
  }

  lemma SameFastTx(m: Modem, m': Modem, left: int)
    requires FastTx(m, left) && m'.tx == m.tx && m'.rate == m.rate
    ensures FastTx(m', left)
  {
  }

  lemma BothFastOn(p: Pair, s: Setting, beat: Beat, j: nat)
    requires Sides(p, s.maxA, s.maxB) && s.Valid() && Good(beat) && BothFast(p, s, j)
    ensures BothFast(Next(p, s, beat), s, j + 1)
  {
    hide TxSymbol, Listen, WellFormed, Counts, Next, FastTx, FastRx, KnownTaps, SendSymbol, SenderOf;
    Halves(p, s, beat);
    var bitsA, bitsB := Offered(p.a, beat.bitsA), Offered(p.b, beat.bitsB);
    FastSymbol(p.a, bitsA, 513 - j);
    FastSymbol(p.b, bitsB, 419 - j);
    var (a, fromA) := TxSymbol(p.a, bitsA);
    var (b, fromB) := TxSymbol(p.b, bitsB);
    SameFastRx(p.a, a, p.b, p.b, s.ka, 270 - j, 419 - j);
    SameFastRx(p.b, b, p.a, p.a, s.kb, 188 - j, 513 - j);
    FastListens(a, p.b, b, fromB.idx, s.ka, beat.noiseA, 270 - j, 419 - j);
    FastListens(b, p.a, a, fromA.idx, s.kb, beat.noiseB, 188 - j, 513 - j);
    var p' := Next(p, s, beat);
    SameFastTx(a, p'.a, 512 - j);
    SameFastTx(b, p'.b, 418 - j);
    SameFastRx(p'.a, p'.a, b, p'.b, s.ka, 269 - j, 418 - j);
    SameFastRx(p'.b, p'.b, a, p'.a, s.kb, 187 - j, 512 - j);
  }

  // ---- The other third phase, at 1200 bit/s: a search in vain ----

  /** One dibit of scrambled ones heard. */
  lemma FollowsOn(t: Taps, st: Scrambler, rx: RxState, rx': RxState, heard: nat)
    requires KnownTaps(t) && Following(st.reg, rx, heard)
    requires var two := TwoOnes(t, st);
             rx'.lastRaw == Dibit(two.1, two.2)
             && rx'.repeats == if rx'.lastRaw == 3 - rx.lastRaw then rx.repeats + 1 else 0
    ensures Following(TwoOnes(t, st).0.reg, rx', heard + 1)
  {
    hide TwoOnes, DibitInRegister;
    var reg := TwoOnes(t, st).0.reg;
    DibitsShift(t, st, 0);
    forall i | 0 <= i && i + 1 < rx'.repeats && i + 1 < 16
      ensures DibitInRegister(reg, i) + DibitInRegister(reg, i + 1) == 3
    {
      DibitsShift(t, st, i);
      if i > 0 {
        DibitsShift(t, st, i - 1);
        assert DibitInRegister(st.reg, i - 1) + DibitInRegister(st.reg, i - 1 + 1) == 3;
      }
    }
  }

  /** Scrambled ones cannot count up to an S1. */
  lemma NothingFound(t: Taps, reg: Register, rx: RxState, heard: nat)
    requires KnownTaps(t) && LawfulTo(t, reg, 4) && Following(reg, rx, heard) && rx.lastRaw < 4
    ensures rx.repeats < 15 || rx.lastRaw == 1 || rx.lastRaw == 2
  {
    hide DibitInRegister, LawfulTo;
    if rx.repeats >= 15 {
      assert AlternatingDibits(reg, 15);
      NeverS1(t, reg);
    }
  }

  /** The baud on which the search is given up. */
  lemma GivesUpOne(m: Modem, quadrant: nat, dibit: nat, k: nat, noise: Complex)
    requires WellFormed(m) && quadrant < 4 && dibit < 4 && k < 4 && Tolerable(true, noise)
    requires Hearing(m, ScrambledOnesAt1200, 161, 1200) && Refers(m.rx.last, quadrant, k)
    requires m.maxRate == 2400 ==> m.rx.repeats < 15 || m.rx.lastRaw == 1 || m.rx.lastRaw == 2
    ensures var m' := Listen(m, Sent(4 * NextQuadrant(quadrant, dibit) + 1), k, noise);
            && m'.tx == m.tx.(count := 0, stage := TimedS11) && m'.rate == 1200 && m'.calling == m.calling
            && m'.rx.carrier && !m'.rx.sixteenWay && m'.rx.count == 162
            && m'.rx.stage == if m.calling then RxNormal else ScrambledOnesAt1200Sustaining
  {
    HearsDibit(m, quadrant, dibit, k, noise);
    hide Listen, ProcessBaud, WellFormed, NextQuadrant, Refers, Decided, DibitOf, RawBits, DecodeSymbol;
    GivesUpBaud(m, Decided(NextQuadrant(quadrant, dibit), k));
  }

  lemma AnswererSearchesOn(p: Pair, s: Setting, beat: Beat, j: nat)
    requires Sides(p, s.maxA, s.maxB) && s.Valid() && Good(beat) && AnswererSearches(p, s, j)
    ensures if j < 161 then AnswererSearches(Next(p, s, beat), s, j + 1) else AnswererGivesUp(Next(p, s, beat), s, 0)
  {
    hide TxSymbol, Listen, WellFormed, Counts, Next, NextQuadrant, Refers, TwoOnes, KnownTaps, Sustained;
    hide CallerReplies, Following, LawfulTo;
    Halves(p, s, beat);
    var bitsA, bitsB := Offered(p.a, beat.bitsA), Offered(p.b, beat.bitsB);
    ToneSymbol(p.b, bitsB);
    var a, b := TxSymbol(p.a, bitsA).0, TxSymbol(p.b, bitsB).0;
    var dibit := SearchedSymbol(p.a, bitsA, s, j);
    var p' := Next(p, s, beat);
    Quadrants(p.b);
    if s.maxA == 1200 {
      RepliesLawfully(p.a, s, 40);
      NothingFound(p.a.tx.taps, p.a.tx.scr.reg, p.b.rx, j);
    }
    if j < 161 {
      SearchesOne(b, p.a.tx.quadrant, dibit, s.kb, beat.noiseB, 161 - j);
      if s.maxA == 1200 {
        FollowsOn(p.a.tx.taps, p.a.tx.scr, p.b.rx, p'.b.rx, j);
      }
    } else {
      GivesUpOne(b, p.a.tx.quadrant, dibit, s.kb, beat.noiseB);
      FreshFromCleared();
      assert LawfulTo(p'.b.tx.taps, p'.b.tx.scr.reg, 0) by { NothingLawful(p'.b.tx.taps, p'.b.tx.scr.reg); }
    }
    SameSustained(p.a, a, p.b, s.ka);
    SustainsOne(a, p.b, b, s.ka, beat.noiseA);
    StillSustained(p'.a, b, p'.b, s.ka);
    if s.maxA == 2400 && j >= 20 {
    } else {
      StillReplies(a, p'.a, s, if s.maxA == 2400 then 41 + j else 40);
    }
  }

  lemma NothingLawful(t: Taps, reg: Register)
    requires KnownTaps(t)
    ensures LawfulTo(t, reg, 0)
  {
  }

  /** What the caller sends during such a search. */
  lemma SearchedSymbol(m: Modem, bits: seq<bool>, s: Setting, j: nat) returns (dibit: nat)
    requires WellFormed(m) && |bits| == BitsPerSymbol(Wide(m)) && s.Valid() && m.calling && Counts(m.tx.scr)
    requires KnownTaps(m.tx.taps)
    requires if s.maxA == 2400 then (if j <= 20 then CallerReplies(m, s, 40 + j) else m.tx.stage.S11?)
             else CallerReplies(m, s, 40)
    ensures dibit < 4 && m.tx.quadrant < 4
    ensures var (m', out) := TxSymbol(m, bits);
            && out == Sent(4 * NextQuadrant(m.tx.quadrant, dibit) + 1)
            && m' == m.(tx := m'.tx) && m'.tx.quadrant == NextQuadrant(m.tx.quadrant, dibit)
            && m'.tx.taps == m.tx.taps
            && (if s.maxA == 2400 then (if j < 20 then CallerReplies(m', s, 41 + j) else m'.tx.stage.S11?)
                else CallerReplies(m', s, 40) && CallerReplies(m, s, 40)
                     && var two := TwoOnes(m.tx.taps, m.tx.scr);
                        m'.tx.scr == two.0 && dibit == Dibit(two.1, two.2))
  {
    hide TxSymbol, NextQuadrant, TwoOnes, Counts, KnownTaps;
    if s.maxA == 2400 && j >= 20 {
      OnesSymbol(m, bits);
      var two := TwoOnes(m.tx.taps, m.tx.scr);
      dibit := Dibit(two.1, two.2);
    } else {
      dibit := ReplySymbol(m, bits, s, if s.maxA == 2400 then 40 + j else 40);
    }
  }

  // ---- The other fourth phase ----

  predicate SlowTx(m: Modem, left: int) {
    && m.rate == 1200
    && if left > 0 then left <= 453 && m.tx.stage.TimedS11? && m.tx.count == 453 - left else m.tx.stage.TxNormal?
  }

  predicate SlowRx(m: Modem, left: int) {
    && m.rate == 1200 && m.rx.carrier && !m.rx.sixteenWay
    && if left > 0 then left <= 622 && m.rx.stage.ScrambledOnesAt1200Sustaining? && m.rx.count == 622 - left
       else m.rx.stage.RxNormal?
  }

  /** Dibits 11 of scrambled ones before the first that is not. */
  function HeadOnes(t: Taps): (h: nat)
    requires KnownTaps(t)
    ensures 2 * h == t.tap1 + 1 && 7 <= h <= 9
  {
    (t.tap1 + 1) / 2
  }

  /** i symbols into the answerer's timed segment, and the caller still hears nothing but 11. */
  predicate AnswererGivesUp(p: Pair, s: Setting, i: nat) {
    && !s.Fast() && Sustained(p.a, p.b, s.ka) && p.a.tx.stage.S11?
    && KnownTaps(p.b.tx.taps) && i <= HeadOnes(p.b.tx.taps)
    && SlowTx(p.b, 453 - i) && SlowRx(p.b, 460 - i) && FreshOnes(p.b.tx.scr, 2 * i)
    && LawfulTo(p.b.tx.taps, p.b.tx.scr.reg, if i < 2 then 2 * i else 4)
  }

  /** One symbol of the slow training or of data. */
  lemma SlowSymbol(m: Modem, bits: seq<bool>, left: int)
    requires WellFormed(m) && |bits| == BitsPerSymbol(Wide(m)) && SlowTx(m, left)
    ensures m.tx.taps.Valid() && m.tx.quadrant < 4
    ensures var (m', out) := TxSymbol(m, bits);
            && SlowTx(m', left - 1) && m' == m.(tx := m'.tx) && m'.tx.taps == m.tx.taps
            && out.Sent? && out.idx < 16 && out.idx == 4 * (out.idx / 4) + 1
            && (left > 0 ==>
                  var two := TwoOnes(m.tx.taps, m.tx.scr);
                  var q := NextQuadrant(m.tx.quadrant, Dibit(two.1, two.2));
                  out.idx == 4 * q + 1 && m'.tx.scr == two.0 && m'.tx.quadrant == q)
  {
    Quadrants(m);
    hide TxSymbol, TwoOnes, NextQuadrant;
    if left > 0 {
      OnesSymbol(m, bits);
    } else {
      DataSymbol(m, bits);
    }
  }

  lemma SlowListens(m: Modem, idx: nat, k: nat, noise: Complex, left: int)
    requires WellFormed(m) && k < 4 && Tolerable(true, noise) && SlowRx(m, left)
    requires idx < 16 && idx == 4 * (idx / 4) + 1
    ensures var m' := Listen(m, Sent(idx), k, noise);
            m' == m.(rx := m'.rx) && SlowRx(m', left - 1)
  {
    hide ProcessBaud, Listen, WellFormed, Refers, Decided, DecodeSymbol;
    HearsPoint(m, idx / 4, k, noise);
    ReferenceRange(Decided(idx / 4, k), idx / 4, k);
    if left > 0 {
      SustainingBaud(m, Decided(idx / 4, k));
    } else {
      NormalListens(m, idx, k, noise);
    }
  }

  lemma AnswererGivesUpOn(p: Pair, s: Setting, beat: Beat, i: nat)
    requires Sides(p, s.maxA, s.maxB) && s.Valid() && Good(beat) && AnswererGivesUp(p, s, i)
    ensures if i < HeadOnes(p.b.tx.taps) then AnswererGivesUp(Next(p, s, beat), s, i + 1)
            else CallerSearches(Next(p, s, beat), s, 0)
  {
    hide TxSymbol, Listen, WellFormed, Counts, Next, NextQuadrant, Refers, TwoOnes, Sustained, FreshOnes, LawfulTo;
    hide SlowTx, SlowRx;
    Halves(p, s, beat);
    var bitsA, bitsB := Offered(p.a, beat.bitsA), Offered(p.b, beat.bitsB);
    var t, h := p.b.tx.taps, HeadOnes(p.b.tx.taps);
    OnesSymbol(p.a, bitsA);
    SlowSymbol(p.b, bitsB, 453 - i);
    var (a, fromA) := TxSymbol(p.a, bitsA);
    var b := TxSymbol(p.b, bitsB).0;
    FreshDibit(t, p.b.tx.scr, 2 * i);
    SymbolIsLawful(t, p.b.tx.scr, if i < 2 then 2 * i else 4);
    SameSlow(p.b, b, 460 - i);
    SlowListens(b, fromA.idx, s.kb, beat.noiseB, 460 - i);
    var p' := Next(p, s, beat);
    SameSlowTx(b, p'.b, 452 - i);
    SameSustained(p.a, a, p.b, s.ka);
    if i < h {
      SustainsOne(a, p.b, b, s.ka, beat.noiseA);
      StillSustained(p'.a, b, p'.b, s.ka);
    } else {
      SustainedParts(a, p.b, s.ka);
      WaitEnds(a, p.b.tx.quadrant, 0, s.ka, beat.noiseA);
      DibitsShift(t, p.b.tx.scr, 0);
      StartsSlow(p'.a);
    }
  }

  lemma StartsSlow(m: Modem)
    requires m.rate == 1200 && m.tx.stage.TimedS11? && m.tx.count == 0
    ensures SlowTx(m, 453)
  {
  }

  lemma SameSlow(m: Modem, m': Modem, left: int)
    requires SlowRx(m, left) && m'.rx == m.rx && m'.rate == m.rate
    ensures SlowRx(m', left)
  {
  }

  lemma SameSlowTx(m: Modem, m': Modem, left: int)
    requires SlowTx(m, left) && m'.tx == m.tx && m'.rate == m.rate
    ensures SlowTx(m', left)
  {
  }

  /** j bauds into the caller's search, which finds nothing either. */
  predicate CallerSearches(p: Pair, s: Setting, j: nat) {
    && j < 162 && !s.Fast() && KnownTaps(p.b.tx.taps)
    && Hearing(p.a, ScrambledOnesAt1200, j, 1200) && Referenced(p.a, p.b, s.ka)
    && Following(p.b.tx.scr.reg, p.a.rx, j + 1) && LawfulTo(p.b.tx.taps, p.b.tx.scr.reg, 4)
    && SlowTx(p.a, 453 - j)
    && var h := HeadOnes(p.b.tx.taps); SlowTx(p.b, 452 - h - j) && SlowRx(p.b, 459 - h - j)
  }

  lemma CallerSearchesOn(p: Pair, s: Setting, beat: Beat, j: nat)
    requires Sides(p, s.maxA, s.maxB) && s.Valid() && Good(beat) && CallerSearches(p, s, j)
    ensures if j < 161 then CallerSearches(Next(p, s, beat), s, j + 1) else BothSlow(Next(p, s, beat), s, 0)
  {
    hide TxSymbol, Listen, WellFormed, Counts, Next, NextQuadrant, Refers, TwoOnes, Following, LawfulTo, SlowTx, SlowRx;
    Halves(p, s, beat);
    var bitsA, bitsB := Offered(p.a, beat.bitsA), Offered(p.b, beat.bitsB);
    var t, h := p.b.tx.taps, HeadOnes(p.b.tx.taps);
    SlowSymbol(p.a, bitsA, 453 - j);
    SlowSymbol(p.b, bitsB, 452 - h - j);
    var (a, fromA) := TxSymbol(p.a, bitsA);
    var b := TxSymbol(p.b, bitsB).0;
    var two := TwoOnes(t, p.b.tx.scr);
    SymbolIsLawful(t, p.b.tx.scr, 4);
    SameSlow(p.b, b, 459 - h - j);
    SlowListens(b, fromA.idx, s.kb, beat.noiseB, 459 - h - j);
    var p' := Next(p, s, beat);
    SameSlowTx(b, p'.b, 451 - h - j);
    Quadrants(p.a);
    NothingFound(t, p.b.tx.scr.reg, p.a.rx, j + 1);
    if j < 161 {
      SearchesOne(a, p.b.tx.quadrant, Dibit(two.1, two.2), s.ka, beat.noiseA, 161 - j);
      FollowsOn(t, p.b.tx.scr, p.a.rx, p'.a.rx, j + 1);
      SameSlowTx(a, p'.a, 452 - j);
    } else {
      GivesUpOne(a, p.b.tx.quadrant, Dibit(two.1, two.2), s.ka, beat.noiseA);
      StartsSlow(p'.a);
      EndsSlow(p'.a);
    }
  }

  lemma EndsSlow(m: Modem)
    requires m.rate == 1200 && m.rx.carrier && !m.rx.sixteenWay && m.rx.stage.RxNormal?
    ensures SlowRx(m, 0)
  {
  }

  /** j symbols into the caller's last timed segment, its receiver in data. */
  predicate BothSlow(p: Pair, s: Setting, j: nat) {
    && !s.Fast() && KnownTaps(p.b.tx.taps) && SlowTx(p.a, 453 - j) && SlowRx(p.a, 0 - j)
    && var h := HeadOnes(p.b.tx.taps); SlowTx(p.b, 290 - h - j) && SlowRx(p.b, 297 - h - j)
  }

  lemma BothSlowOn(p: Pair, s: Setting, beat: Beat, j: nat)
    requires Sides(p, s.maxA, s.maxB) && s.Valid() && Good(beat) && BothSlow(p, s, j)
    ensures BothSlow(Next(p, s, beat), s, j + 1)
  {
    hide TxSymbol, Listen, WellFormed, Counts, Next, NextQuadrant, TwoOnes, SlowTx, SlowRx, KnownTaps;
    Halves(p, s, beat);
    var bitsA, bitsB, h := Offered(p.a, beat.bitsA), Offered(p.b, beat.bitsB), HeadOnes(p.b.tx.taps);
    SlowSymbol(p.a, bitsA, 453 - j);
    SlowSymbol(p.b, bitsB, 290 - h - j);
    var (a, fromA) := TxSymbol(p.a, bitsA);
    var (b, fromB) := TxSymbol(p.b, bitsB);
    SameSlow(p.a, a, 0 - j);
    SameSlow(p.b, b, 297 - h - j);
    SlowListens(a, fromB.idx, s.ka, beat.noiseA, 0 - j);
    SlowListens(b, fromA.idx, s.kb, beat.noiseB, 297 - h - j);
    var p' := Next(p, s, beat);
    SameSlowTx(a, p'.a, 452 - j);
    SameSlowTx(b, p'.b, 289 - h - j);
  }

  // ---- The whole set-up ----

  /** Where the pair is after n symbol times from power-up. */
  predicate At(p: Pair, s: Setting, n: nat)
    requires KnownTaps(p.b.tx.taps)
  {
    var h := HeadOnes(p.b.tx.taps);
    if n < 45 then Silent(p, n)
    else if n < 85 then CallerAcquires(p, s, n - 45)
    else if n < 451 then CallerCounts(p, s, n - 85)
    else if n < 491 then AnswererAcquires(p, s, n - 451)
    else if s.Fast() then
      if n < 512 then HearsS1(p, s, n - 491)
      else if n < 573 then AnswererReplies(p, s, n - 512)
      else BothFast(p, s, n - 573)
    else
      if n < 653 then AnswererSearches(p, s, n - 491)
      else if n < 654 + h then AnswererGivesUp(p, s, n - 653)
      else if n < 816 + h then CallerSearches(p, s, n - 654 - h)
      else BothSlow(p, s, n - 816 - h)
  }

  lemma AtNext(p: Pair, s: Setting, beat: Beat, n: nat)
    requires Sides(p, s.maxA, s.maxB) && s.Valid() && Good(beat) && At(p, s, n)
    ensures Sides(Next(p, s, beat), s.maxA, s.maxB) && At(Next(p, s, beat), s, n + 1)
  {
    hide BothFormed, Next, Counts, KnownTaps, Silent, CallerAcquires, CallerCounts, AnswererAcquires, HearsS1, HeadOnes;
    hide AnswererReplies, BothFast, AnswererSearches, AnswererGivesUp, CallerSearches, BothSlow, Round;
    RoundKeepsSides(p, s.ka, s.kb, beat, s.maxA, s.maxB);
    NextIsRound(p, s, beat);
    TapsStay(p, s, beat);
    var h := HeadOnes(p.b.tx.taps);
    if n < 45 {
      SilentRound(p, s, beat, n);
    } else if n < 85 {
      CallerAcquiresOn(p, s, beat, n - 45);
    } else if n < 451 {
      CallerCountsOn(p, s, beat, n - 85);
    } else if n < 491 {
      AnswererAcquiresOn(p, s, beat, n - 451);
    } else if s.Fast() {
      if n < 512 {
        HearsS1On(p, s, beat, n - 491);
      } else if n < 573 {
        AnswererRepliesOn(p, s, beat, n - 512);
      } else {
        BothFastOn(p, s, beat, n - 573);
      }
    } else {
      if n < 653 {
        AnswererSearchesOn(p, s, beat, n - 491);
      } else if n < 654 + h {
        AnswererGivesUpOn(p, s, beat, n - 653);
      } else if n < 816 + h {
        CallerSearchesOn(p, s, beat, n - 654 - h);
      } else {
        BothSlowOn(p, s, beat, n - 816 - h);
      }
    }
  }

  lemma NextIsRound(p: Pair, s: Setting, beat: Beat)
    requires BothFormed(p) && s.Valid() && Good(beat)
    ensures Next(p, s, beat) == Round(p, s.ka, s.kb, beat)
  {
    hide Round;
  }

  lemma TapsStay(p: Pair, s: Setting, beat: Beat)
    requires BothFormed(p) && s.Valid() && Good(beat) && Counts(p.b.tx.scr)
    ensures Next(p, s, beat).b.tx.taps == p.b.tx.taps
  {
    hide TxSymbol, Listen, WellFormed, Counts, Next;
    Halves(p, s, beat);
    SymbolKeepsSide(p.b, Offered(p.b, beat.bitsB));
    ListenKeepsSide(TxSymbol(p.b, Offered(p.b, beat.bitsB)).0, TxSymbol(p.a, Offered(p.a, beat.bitsA)).1, s.kb,
                    beat.noiseB);
  }

  function PowerUp(maxA: nat, maxB: nat, compat: bool): (p: Pair) {
    Pair(Init(maxA, true, compat), Init(maxB, false, compat))
  }

  lemma PoweredUp(s: Setting, compat: bool)
    requires s.Valid()
    ensures var p := PowerUp(s.maxA, s.maxB, compat); Sides(p, s.maxA, s.maxB) && At(p, s, 0)
  {
    ClearedCounts();
  }

  lemma {:induction false} AtAfter(s: Setting, compat: bool, beats: seq<Beat>)
    requires s.Valid() && forall i | 0 <= i < |beats| :: Good(beats[i])
    ensures var p := PowerUp(s.maxA, s.maxB, compat);
            && BothFormed(p)
            && var p' := Rounds(p, s.ka, s.kb, beats); Sides(p', s.maxA, s.maxB) && At(p', s, |beats|)
    decreases |beats|
  {
    hide Round, At, PowerUp, BothFormed;
    PoweredUp(s, compat);
    if beats != [] {
      AtAfter(s, compat, beats[..|beats| - 1]);
      var p := Rounds(PowerUp(s.maxA, s.maxB, compat), s.ka, s.kb, beats[..|beats| - 1]);
      AtNext(p, s, beats[|beats| - 1], |beats| - 1);
    }
  }

  /** Both directions of a modem in data, deciding as its rate demands. */
  predicate Ready(m: Modem, rate: nat) {
    && WellFormed(m) && m.rate == rate && m.tx.stage.TxNormal? && m.rx.stage.RxNormal? && m.rx.carrier
    && m.rx.sixteenWay == (rate != 1200)
  }

  /** Every call is set up. Two modems from power-up, with any maximum rates, under any constant right-angle turns, any
      tolerable noise and whatever their sources offer, are both in data after 1278 symbol times, just over two
      seconds, and stay there: at 2400 bit/s if both can, and at 1200 bit/s otherwise. */
  lemma CallIsSetUp(s: Setting, compat: bool, beats: seq<Beat>)
    requires s.Valid() && (forall i | 0 <= i < |beats| :: Good(beats[i])) && |beats| >= 1278
    ensures BothFormed(PowerUp(s.maxA, s.maxB, compat))
    ensures var p := Rounds(PowerUp(s.maxA, s.maxB, compat), s.ka, s.kb, beats);
            var rate := if s.maxA == 2400 && s.maxB == 2400 then 2400 else 1200;
            && Ready(p.a, rate) && Ready(p.b, rate) && Sides(p, s.maxA, s.maxB)
  {
    hide Rounds, Counts, WellFormed;
    AtAfter(s, compat, beats);
  }
}
