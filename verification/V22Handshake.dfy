/** The coupled V.22bis start-up machine (section 6 of ITU-T V.22bis): the receiver's progress drives the
    transmitter's stage and the negotiated rate. Analogue decisions enter as the index the slicer chose. */
module V22Handshake {
  import opened V22Scrambler
  import opened V22DataPath

  function Symbols(ms: nat): (n: nat) {
    ms * 600 / 1000
  }

  datatype TxStage = TxNormal | InitialSilence | U11 | U0011 | S11 | TimedS11 | S1111 | TxParked

  datatype RxStage =
    | RxNormal | SymbolAcquisition | UnscrambledOnes | UnscrambledOnesSustaining
    | ScrambledOnesAt1200 | ScrambledOnesAt1200Sustaining | WaitForScrambledOnesAt2400 | RxParked

  datatype TxState = TxState(taps: Taps, scr: Scrambler, stage: TxStage, count: nat, quadrant: nat)

  datatype RxState = RxState(taps: Taps, scr: Scrambler, stage: RxStage, count: nat, last: nat,
                             lastRaw: nat, repeats: nat, sixteenWay: bool, carrier: bool)

  datatype Modem = Modem(maxRate: nat, calling: bool, rate: nat, tx: TxState, rx: RxState)

  const ACQUIRE_SYMBOLS := 40

  // ---- Set-up ----

  function ClearedRx(taps: Taps): (rx: RxState) {
    RxState(taps, Cleared(), SymbolAcquisition, 0, 0, 0, 0, false, false)
  }

  /** v22bis_init for a valid maximum rate. Each side scrambles with its own polynomial and descrambles
      with the far end's, unless compatibility forces the calling polynomial both ways. */
  function Init(maxRate: nat, calling: bool, compat: bool): (m: Modem) {
    var own := if compat || calling then CALLING_TAPS else ANSWERING_TAPS;
    var far := if compat || !calling then CALLING_TAPS else ANSWERING_TAPS;
    Modem(maxRate, calling, 0, TxState(own, Cleared(), InitialSilence, 0, 0), ClearedRx(far))
  }

  /** Both ends always agree on the polynomial of each direction. */
  lemma TapsMatch(maxRate: nat, otherMax: nat, compat: bool)
    ensures Init(maxRate, true, compat).tx.taps == Init(otherMax, false, compat).rx.taps
    ensures Init(maxRate, false, compat).tx.taps == Init(otherMax, true, compat).rx.taps
    ensures Init(maxRate, true, compat).tx.taps.Valid() && Init(maxRate, false, compat).tx.taps.Valid()
  {
  }

  // ---- Transmitter ----

  predicate WellFormed(m: Modem) {
    m.tx.taps.Valid() && m.rx.taps.Valid() && m.tx.quadrant < 4 && m.rx.last < 16 && m.rx.lastRaw < 4
  }

  /** One symbol's worth of scrambled bits turns the transmitter's quadrant. */
  function Emit(tx: TxState, wide: bool, bits: seq<bool>): (r: (TxState, nat))
    requires tx.taps.Valid() && tx.quadrant < 4 && |bits| == BitsPerSymbol(wide)
    ensures r.1 < 16 && r.0.quadrant == r.1 / 4
    ensures r.0.stage == tx.stage && r.0.count == tx.count && r.0.taps == tx.taps
  {
    var sent := SendSymbol(tx.taps, wide, Sender(tx.scr, tx.quadrant), bits);
    (tx.(scr := sent.0.scr, quadrant := sent.0.quadrant), sent.1)
  }

  datatype Output = Silence | Sent(idx: nat)

  /** A symbol of scrambled ones. */
  function Emitting(m: Modem, tx: TxState, wide: bool): (r: (Modem, Output))
    requires tx.taps.Valid() && tx.quadrant < 4
  {
    var e := Emit(tx, wide, if wide then [true, true, true, true] else [true, true]);
    (m.(tx := e.0), Sent(e.1))
  }

  /** One training symbol. */
  function TrainingSymbol(m: Modem): (r: (Modem, Output))
    requires m.tx.taps.Valid() && m.tx.quadrant < 4
  {
    var tx := m.tx;
    match tx.stage
    case InitialSilence =>
      var n := if m.calling then tx.count else tx.count + 1;
      var done := !m.calling && n >= Symbols(75);
      (m.(tx := tx.(quadrant := 0, count := if done then 0 else n, stage := if done then U11 else InitialSilence)),
       Silence)
    case U11 =>
      var q := (tx.quadrant + PhaseStep(3)) % 4;
      (m.(tx := tx.(quadrant := q)), Sent(4 * q + 1))
    case U0011 =>
      var q := (tx.quadrant + PhaseStep(3 * (tx.count % 2))) % 4;
      var next := if tx.count + 1 < Symbols(100) then tx.(count := tx.count + 1)
                  else if m.calling then tx.(count := 0, stage := S11)
                  else tx.(count := Symbols(256), stage := TimedS11);
      (m.(tx := next.(quadrant := q)), Sent(4 * q + 1))
    case TimedS11 =>
      var next := if tx.count + 1 < Symbols(756) then tx.(count := tx.count + 1)
                  else tx.(count := 0, stage := if m.rate == 2400 then S1111 else TxNormal);
      Emitting(m, next, false)
    case S11 => Emitting(m, tx, false)
    case S1111 =>
      var next := if tx.count + 1 < Symbols(200) then tx.(count := tx.count + 1)
                  else tx.(count := 0, stage := TxNormal);
      Emitting(m, next, true)
    case TxNormal => (m, Silence)
    case TxParked => (m, Silence)
  }

  /** One transmitted symbol; the source bits matter only once training is over. */
  function TxSymbol(m: Modem, bits: seq<bool>): (r: (Modem, Output))
    requires WellFormed(m) && |bits| == BitsPerSymbol(m.rate != 1200)
    ensures WellFormed(r.0)
  {
    hide PhaseStep, SendSymbol;
    if m.tx.stage.TxNormal? then
      var e := Emit(m.tx, m.rate != 1200, bits);
      (m.(tx := e.0), Sent(e.1))
    else
      TrainingSymbol(m)
  }

  // ---- Receiver ----

  /** The dibit that the change from the last index to this one stands for. */
  function RawBits(rx: RxState, nearest: nat): (raw: nat)
    requires rx.last < 16 && nearest < 16
    ensures raw < 4
  {
    PhaseStep((nearest / 4 - rx.last / 4) % 4)
  }

  /** Differential decoding and descrambling of one symbol. */
  function DecodeBaud(rx: RxState, nearest: nat): (r: (RxState, seq<bool>))
    requires rx.taps.Valid() && rx.last < 16 && nearest < 16
    ensures r.0 == rx.(scr := r.0.scr, last := nearest)
    ensures |r.1| == BitsPerSymbol(rx.sixteenWay)
  {
    var decoded := DecodeSymbol(rx.taps, rx.sixteenWay, Receiver(rx.scr, rx.last), nearest);
    (rx.(scr := decoded.0.scr, last := nearest), decoded.1)
  }

  /** Does this baud end a segment of alternating 00 and 11, at least 15 changes long? */
  predicate S1Ends(rx: RxState, nearest: nat)
    requires rx.last < 16 && nearest < 16
  {
    RawBits(rx, nearest) != 3 - rx.lastRaw && rx.repeats >= 15 && (rx.lastRaw == 3 || rx.lastRaw == 0)
  }

  function AfterAcquisition(m: Modem, nearest: nat): (m': Modem) {
    if m.rx.count + 1 < ACQUIRE_SYMBOLS then m.(rx := m.rx.(count := m.rx.count + 1))
    else m.(rate := 1200,
            rx := m.rx.(repeats := 0, last := nearest, count := 0,
                        stage := if m.calling then UnscrambledOnes else ScrambledOnesAt1200))
  }

  function AfterUnscrambledOnes(m: Modem, raw: nat, nearest: nat): (m': Modem) {
    var steady := raw == m.rx.lastRaw;
    var repeats := if steady then m.rx.repeats + 1 else 0;
    var rx := m.rx.(last := nearest, repeats := repeats, count := m.rx.count + 1);
    if rx.count != Symbols(155 + 456) then m.(rx := rx)
    else
      var answer := steady && (raw == 3 || raw == 0) && repeats >= Symbols(456);
      m.(rx := rx.(repeats := 0, count := 0, stage := UnscrambledOnesSustaining),
         tx := if answer then m.tx.(count := 0, stage := if m.maxRate == 2400 then U0011 else S11) else m.tx)
  }

  function AfterScrambledOnes(m: Modem, raw: nat, nearest: nat): (m': Modem)
    requires m.rx.taps.Valid() && m.rx.last < 16 && nearest < 16
  {
    var ended := S1Ends(m.rx, nearest);
    var rx := DecodeBaud(m.rx, nearest).0;
    var n := rx.count + 1;
    if m.rate == 1200 then
      var accept := ended && m.maxRate == 2400;
      var m1 := m.(rate := if accept then 2400 else 1200,
                   rx := rx.(count := n, repeats := if raw == 3 - rx.lastRaw then rx.repeats + 1 else 0),
                   tx := if accept && !m.calling then m.tx.(count := 0, stage := U0011) else m.tx);
      if n < Symbols(270) then m1
      else m1.(tx := m1.tx.(count := 0, stage := TimedS11),
               rx := m1.rx.(stage := if m.calling then RxNormal else ScrambledOnesAt1200Sustaining))
    else if n < Symbols(if m.calling then 100 + 450 else 450) then
      m.(rx := rx.(count := n))
    else
      m.(rx := rx.(count := n, sixteenWay := true, repeats := 0, stage := WaitForScrambledOnesAt2400))
  }

  function AfterWait(m: Modem, nearest: nat): (m': Modem)
    requires m.rx.taps.Valid() && m.rx.last < 16 && nearest < 16
  {
    var rx := DecodeBaud(m.rx, nearest);
    var repeats := if rx.1 == [true, true, true, true] then rx.0.repeats + 1 else 0;
    m.(rx := rx.0.(repeats := repeats, stage := if repeats >= 9 then RxNormal else rx.0.stage))
  }

  function AfterSustaining(m: Modem, nearest: nat): (m': Modem)
    requires m.rx.taps.Valid() && m.rx.last < 16 && nearest < 16
  {
    var rx := DecodeBaud(m.rx, nearest).0;
    m.(rx := rx.(count := rx.count + 1, stage := if rx.count + 1 > Symbols(270 + 765) then RxNormal else rx.stage))
  }

  function AfterUnscrambledOnesSustaining(m: Modem, raw: nat, nearest: nat): (m': Modem) {
    if raw == m.rx.lastRaw then m.(rx := m.rx.(last := nearest))
    else m.(tx := m.tx.(count := 0, stage := TimedS11),
            rx := m.rx.(last := nearest, count := 0, repeats := 0, stage := ScrambledOnesAt1200))
  }

  function AfterBaud(m: Modem, nearest: nat): (m': Modem)
    requires WellFormed(m) && nearest < 16
    ensures WellFormed(m')
  {
    hide PhaseStep, DecodeSymbol, S1Ends;
    var raw := RawBits(m.rx, nearest);
    match m.rx.stage
    case SymbolAcquisition => AfterAcquisition(m, nearest)
    case UnscrambledOnes => AfterUnscrambledOnes(m, raw, nearest)
    case UnscrambledOnesSustaining => AfterUnscrambledOnesSustaining(m, raw, nearest)
    case ScrambledOnesAt1200 => AfterScrambledOnes(m, raw, nearest)
    case ScrambledOnesAt1200Sustaining => AfterSustaining(m, nearest)
    case WaitForScrambledOnesAt2400 => AfterWait(m, nearest)
    case RxNormal => m.(rx := DecodeBaud(m.rx, nearest).0)
    case RxParked => m
  }

  /** process_baud: one whole received symbol, decided as nearest. */
  function ProcessBaud(m: Modem, nearest: nat): (m': Modem)
    requires WellFormed(m) && nearest < 16
    ensures WellFormed(m')
  {
    hide PhaseStep, AfterBaud;
    var m1 := AfterBaud(m, nearest);
    m1.(rx := m1.rx.(lastRaw := RawBits(m.rx, nearest)))
  }

  /** The bits a baud hands to the data side. */
  function Delivered(m: Modem, nearest: nat): (bits: seq<bool>)
    requires m.rx.taps.Valid() && m.rx.last < 16 && nearest < 16
  {
    if m.rx.stage.RxNormal? then DecodeBaud(m.rx, nearest).1 else []
  }

  /** acquire_reset, run when a carrier appears. */
  function CarrierAppears(m: Modem): (m': Modem) {
    m.(rate := 1200, rx := ClearedRx(m.rx.taps).(carrier := true))
  }

  // ---- Runs ----

  datatype Event =
    | Symbol(bits: seq<bool>)   // the transmitter's symbol clock ticks
    | Baud(nearest: nat)        // the receiver has decided one symbol
    | CarrierUp
    | CarrierDown
    | Restart                   // v22bis_rx_restart

  predicate Enabled(m: Modem, e: Event) {
    match e
    case Symbol(bits) => |bits| == BitsPerSymbol(m.rate != 1200)
    case Baud(nearest) => m.rx.carrier && nearest < 16
    case CarrierUp => !m.rx.carrier
    case CarrierDown => m.rx.carrier
    case Restart => true
  }

  function Step(m: Modem, e: Event): (m': Modem)
    requires WellFormed(m) && Enabled(m, e)
    ensures WellFormed(m')
  {
    hide PhaseStep, SendSymbol, DecodeSymbol;
    match e
    case Symbol(bits) => TxSymbol(m, bits).0
    case Baud(nearest) => ProcessBaud(m, nearest)
    case CarrierUp => CarrierAppears(m)
    case CarrierDown => m.(rx := m.rx.(carrier := false))
    case Restart => m.(rx := ClearedRx(m.rx.taps))
  }

  /** The states a run goes through: every event is enabled where it happens. */
  ghost predicate IsRun(m0: Modem, events: seq<Event>, states: seq<Modem>)
    ensures IsRun(m0, events, states) ==> |states| == |events| + 1 && states[0] == m0
  {
    && |states| == |events| + 1 && states[0] == m0
    && forall i | 0 <= i < |events| ::
         WellFormed(states[i]) && Enabled(states[i], events[i]) && states[i + 1] == Step(states[i], events[i])
  }

  // ---- Safety ----

  predicate ValidRate(rate: nat) {
    rate == 1200 || rate == 2400
  }

  /** The receiver delivers, or will deliver, QPSK bits although 2400 bit/s was negotiated. */
  predicate Mismatch(m: Modem) {
    m.rate == 2400 && !m.rx.sixteenWay && (m.rx.stage.RxNormal? || m.rx.stage.ScrambledOnesAt1200Sustaining?)
  }

  /** The baud that can create a mismatch: S1 is seen to end on the very baud that gives up on S1. */
  predicate LateS1(m: Modem, e: Event)
    requires WellFormed(m)
  {
    && e.Baud? && Enabled(m, e) && m.maxRate == 2400 && m.rate == 1200
    && m.rx.stage.ScrambledOnesAt1200? && m.rx.count + 1 == Symbols(270) && S1Ends(m.rx, e.nearest)
  }

  predicate Safe(m: Modem) {
    && WellFormed(m) && ValidRate(m.maxRate) && (m.rate == 0 || ValidRate(m.rate))
    && (m.rate == 2400 ==> m.maxRate == 2400)
    && (m.rx.sixteenWay ==> m.rate == 2400 && (m.rx.stage.WaitForScrambledOnesAt2400? || m.rx.stage.RxNormal?))
    && (m.rx.stage.WaitForScrambledOnesAt2400? ==> m.rx.sixteenWay)
    && (m.rate == 0 ==>
          !m.rx.carrier && m.rx.stage.SymbolAcquisition? && (m.tx.stage.InitialSilence? || m.tx.stage.U11?))
    && (m.tx.stage.U11? ==> !m.calling)
    && (m.rx.stage.UnscrambledOnes? || m.rx.stage.UnscrambledOnesSustaining? ==> m.calling)
    && (m.rx.stage.ScrambledOnesAt1200Sustaining? ==> !m.calling)
    && !m.tx.stage.TxParked? && !m.rx.stage.RxParked?
    && TxCountInRange(m) && RxCountInRange(m)
  }

  /** Every timed stage is left on time. */
  predicate TxCountInRange(m: Modem) {
    match m.tx.stage
    case InitialSilence => m.tx.count < Symbols(75)
    case U0011 => m.tx.count < Symbols(100)
    case TimedS11 => m.tx.count < Symbols(756)
    case S1111 => m.tx.count < Symbols(200)
    case _ => true
  }

  predicate RxCountInRange(m: Modem) {
    match m.rx.stage
    case SymbolAcquisition => m.rx.count < ACQUIRE_SYMBOLS
    case UnscrambledOnes => m.rx.count < Symbols(155 + 456)
    case ScrambledOnesAt1200 =>
      if m.rate == 1200 then m.rx.count < Symbols(270) else m.rx.count < Symbols(if m.calling then 100 + 450 else 450)
    case _ => true
  }

  lemma InitIsSafe(maxRate: nat, calling: bool, compat: bool)
    requires ValidRate(maxRate)
    ensures Safe(Init(maxRate, calling, compat))
  {
  }

  lemma BaudKeepsSafe(m: Modem, nearest: nat)
    requires Safe(m) && m.rx.carrier && nearest < 16
    ensures Safe(ProcessBaud(m, nearest))
  {
    hide PhaseStep, DecodeSymbol, S1Ends, AfterScrambledOnes;
    if m.rx.stage.ScrambledOnesAt1200? {
      ScrambledOnesKeepSafe(m, nearest);
    }
  }

  lemma ScrambledOnesKeepSafe(m: Modem, nearest: nat)
    requires Safe(m) && nearest < 16 && m.rx.stage.ScrambledOnesAt1200?
    ensures Safe(AfterScrambledOnes(m, RawBits(m.rx, nearest), nearest))
  {
    hide PhaseStep, DecodeSymbol, S1Ends;
  }

  lemma SymbolKeepsSafe(m: Modem, bits: seq<bool>)
    requires Safe(m) && |bits| == BitsPerSymbol(m.rate != 1200)
    ensures Safe(TxSymbol(m, bits).0)
  {
    hide PhaseStep, SendSymbol;
  }

  lemma StepKeepsSafe(m: Modem, e: Event)
    requires Safe(m) && Enabled(m, e)
    ensures Safe(Step(m, e))
  {
    match e
    case Symbol(bits) => SymbolKeepsSafe(m, bits);
    case Baud(nearest) => BaudKeepsSafe(m, nearest);
    case CarrierUp =>
    case CarrierDown =>
    case Restart =>
  }

  /** Safety of every reachable state, carrier loss at any point included, and what it means for a user of the modem:
      2400 bit/s only if allowed, 16-way decisions only at 2400 bit/s, data only with a rate, and neither side in a
      training stage of the other. */
  lemma {:induction false} SafeThroughout(m0: Modem, events: seq<Event>, states: seq<Modem>, i: nat)
    requires Safe(m0) && IsRun(m0, events, states) && i < |states|
    ensures Safe(states[i])
    ensures states[i].maxRate == m0.maxRate && states[i].calling == m0.calling
    ensures states[i].rate == 2400 ==> m0.maxRate == 2400
    ensures states[i].rx.sixteenWay ==> states[i].rate == 2400
    ensures states[i].tx.stage.TxNormal? ==> states[i].rate != 0
    ensures m0.calling ==> !states[i].tx.stage.U11?
    ensures !m0.calling ==> !states[i].rx.stage.UnscrambledOnes? && !states[i].rx.stage.UnscrambledOnesSustaining?
  {
    if i > 0 {
      hide Step, Safe;
      SafeThroughout(m0, events, states, i - 1);
      StepKeepsSafe(states[i - 1], events[i - 1]);
      StepKeepsRole(states[i - 1], events[i - 1]);
    }
    assert Safe(states[i]);
  }

  /** In no run does training hand a bit to the data side, and data arrives with the carrier up, at a negotiated rate,
      two bits to the baud or, at 2400 bit/s only, four. */
  lemma DeliversDataOnly(m0: Modem, events: seq<Event>, states: seq<Modem>, i: nat)
    requires Safe(m0) && IsRun(m0, events, states) && i < |events| && events[i].Baud?
    ensures WellFormed(states[i]) && Enabled(states[i], events[i])
    ensures var m, bits := states[i], Delivered(states[i], events[i].nearest);
            && (bits != [] <==> m.rx.stage.RxNormal?)
            && (bits != [] ==> m.rx.carrier && ValidRate(m.rate) && (|bits| == 2 || (|bits| == 4 && m.rate == 2400)))
  {
    SafeThroughout(m0, events, states, i);
    hide DecodeBaud;
  }

  lemma StepKeepsRole(m: Modem, e: Event)
    requires WellFormed(m) && Enabled(m, e)
    ensures Step(m, e).maxRate == m.maxRate && Step(m, e).calling == m.calling
  {
    hide PhaseStep, SendSymbol, DecodeSymbol;
  }

  // ---- The one way to negotiate 2400 bit/s and still decide for QPSK ----

  /** One step creates a mismatch exactly when it is a baud on which S1 ends as the search for it gives up. */
  lemma MismatchCreatedExactly(m: Modem, e: Event)
    requires Safe(m) && Enabled(m, e) && !Mismatch(m)
    ensures Mismatch(Step(m, e)) <==> LateS1(m, e)
  {
    hide PhaseStep, SendSymbol, DecodeSymbol;
  }

  /** A mismatch in any state of any run has its late S1 earlier in the run, and no carrier loss since. */
  lemma {:induction false} MismatchHasOrigin(m0: Modem, events: seq<Event>, states: seq<Modem>, i: nat) returns (j: nat)
    requires Safe(m0) && !Mismatch(m0) && IsRun(m0, events, states) && i < |states| && Mismatch(states[i])
    ensures j < i && WellFormed(states[j]) && LateS1(states[j], events[j])
    ensures forall k | j < k < i :: !events[k].CarrierUp? && !events[k].Restart?
  {
    hide Step, Safe, LateS1;
    var e := events[i - 1];
    SafeThroughout(m0, events, states, i - 1);
    if Mismatch(states[i - 1]) {
      j := MismatchHasOrigin(m0, events, states, i - 1);
      if e.CarrierUp? || e.Restart? { ResetClearsMismatch(states[i - 1], e); }
    } else {
      MismatchCreatedExactly(states[i - 1], e);
      j := i - 1;
    }
  }

  lemma ResetClearsMismatch(m: Modem, e: Event)
    requires WellFormed(m) && Enabled(m, e) && (e.CarrierUp? || e.Restart?)
    ensures !Mismatch(Step(m, e))
  {
  }

  // ---- ... and it does happen ----

  /** One more event in front of a run. */
  lemma Prepend(m: Modem, e: Event, events: seq<Event>, states: seq<Modem>)
    requires WellFormed(m) && Enabled(m, e) && IsRun(Step(m, e), events, states)
    ensures IsRun(m, [e] + events, [m] + states)
    ensures ([m] + states)[|[e] + events|] == states[|events|]
  {
    hide Step, WellFormed, Enabled;
    var es, ms := [e] + events, [m] + states;
    forall i | 0 <= i < |es| ensures WellFormed(ms[i]) && Enabled(ms[i], es[i]) && ms[i + 1] == Step(ms[i], es[i]) {
      if i > 0 {
        assert es[i] == events[i - 1] && ms[i] == states[i - 1] && ms[i + 1] == states[i];
      }
    }
  }

  lemma EmptyRun(m: Modem)
    ensures IsRun(m, [], [m])
  {
  }

  /** The line runs at one rate both ways: a beat is a symbol out and a symbol in. */
  const OUT := Symbol([true, true])

  lemma PrependBeat(m: Modem, nearest: nat, events: seq<Event>, states: seq<Modem>)
      returns (es: seq<Event>, ms: seq<Modem>)
    requires WellFormed(m) && Enabled(m, OUT)
    requires Enabled(Step(m, OUT), Baud(nearest)) && IsRun(Step(Step(m, OUT), Baud(nearest)), events, states)
    ensures IsRun(m, es, ms) && ms[|es|] == states[|events|]
  {
    hide Step, WellFormed, IsRun;
    Prepend(Step(m, OUT), Baud(nearest), events, states);
    Prepend(m, OUT, [Baud(nearest)] + events, [Step(m, OUT)] + states);
    es, ms := [OUT] + ([Baud(nearest)] + events), [m] + ([Step(m, OUT)] + states);
  }

  /** An answerer that can do 2400 bit/s, at 1200 bit/s with the carrier up, whose transmitter has not been driven
      on. */
  predicate Answering(m: Modem) {
    && WellFormed(m) && m.maxRate == 2400 && !m.calling && m.rate == 1200 && m.rx.carrier && !m.rx.sixteenWay
    && (m.tx.stage.InitialSilence? || m.tx.stage.U11?)
  }

  lemma AnsweringGoesOn(m: Modem)
    requires Answering(m)
    ensures Enabled(m, OUT) && Answering(Step(m, OUT)) && Step(m, OUT).rx == m.rx
  {
    hide PhaseStep, SendSymbol;
  }

  /** k bauds into a segment of alternating 00 and 11. */
  predicate Alternating(m: Modem, k: nat) {
    && Answering(m) && m.rx.stage.ScrambledOnesAt1200? && m.rx.count == k && k >= 1 && m.rx.repeats == k - 1
    && (if k % 2 == 1 then m.rx.last / 4 == 1 && m.rx.lastRaw == 0 else m.rx.last / 4 == 0 && m.rx.lastRaw == 3)
  }

  lemma AlternationGoesOn(m: Modem, k: nat)
    requires Alternating(m, k) && k + 1 < Symbols(270)
    ensures var m1 := Step(m, OUT);
            var e := Baud(if k % 2 == 1 then 1 else 5);
            Enabled(m, OUT) && WellFormed(m1) && Enabled(m1, e) && Alternating(Step(m1, e), k + 1)
  {
    hide DecodeSymbol, TxSymbol;
    AnsweringGoesOn(m);
  }

  /** The events that lead from baud k of the alternation to its end on baud 162. */
  lemma {:induction false} AlternationEndsLate(m: Modem, k: nat) returns (events: seq<Event>, states: seq<Modem>)
    requires Alternating(m, k) && k + 1 <= Symbols(270)
    ensures IsRun(m, events, states) && Mismatch(states[|events|])
    decreases Symbols(270) - k
  {
    assert WellFormed(m) && Enabled(m, OUT);
    hide Step, Mismatch, Alternating, IsRun;
    var nearest := 5;
    if k + 1 < Symbols(270) {
      AlternationGoesOn(m, k);
      nearest := if k % 2 == 1 then 1 else 5;
      events, states := AlternationEndsLate(Step(Step(m, OUT), Baud(nearest)), k + 1);
    } else {
      LastBaud(m);
      var m2 := Step(Step(m, OUT), Baud(5));
      events, states := [], [m2];
      EmptyRun(m2);
    }
    events, states := PrependBeat(m, nearest, events, states);
  }

  lemma LastBaud(m: Modem)
    requires Alternating(m, 161)
    ensures var m1 := Step(m, OUT);
            Enabled(m, OUT) && WellFormed(m1) && Enabled(m1, Baud(5)) && Mismatch(Step(m1, Baud(5)))
  {
    hide DecodeSymbol, TxSymbol;
    AnsweringGoesOn(m);
  }

  /** k bauds into acquisition, all on the same point. */
  predicate Acquiring(m: Modem, k: nat) {
    && Answering(m) && m.rx.stage.SymbolAcquisition? && m.rx.count == k && k < ACQUIRE_SYMBOLS && m.rx.last / 4 == 0
    && (k > 0 ==> m.rx.lastRaw == 1)
  }

  /** Just acquired, with nothing searched yet. */
  predicate Acquired(m: Modem) {
    && Answering(m) && m.rx.stage.ScrambledOnesAt1200? && m.rx.count == 0 && m.rx.repeats == 0
    && m.rx.last / 4 == 0 && m.rx.lastRaw == 1
  }

  lemma AcquisitionGoesOn(m: Modem, k: nat)
    requires Acquiring(m, k)
    ensures var m1 := Step(m, OUT);
            && Enabled(m, OUT) && WellFormed(m1) && Enabled(m1, Baud(1))
            && var next := Step(m1, Baud(1));
               if k + 1 < ACQUIRE_SYMBOLS then Acquiring(next, k + 1) else Acquired(next)
  {
    hide DecodeSymbol, TxSymbol;
    AnsweringGoesOn(m);
  }

  /** The state at the end of acquisition. */
  function AfterAcquiring(m: Modem, k: nat): (m': Modem)
    requires Acquiring(m, k)
    ensures Acquired(m')
    decreases ACQUIRE_SYMBOLS - k
  {
    assert WellFormed(m) && Enabled(m, OUT);
    hide Step, Acquiring, Acquired;
    AcquisitionGoesOn(m, k);
    var next := Step(Step(m, OUT), Baud(1));
    if k + 1 < ACQUIRE_SYMBOLS then AfterAcquiring(next, k + 1) else next
  }

  /** Any run from the end of acquisition extends to one from its start. */
  lemma {:induction false} AcquireFirst(m: Modem, k: nat, events: seq<Event>, states: seq<Modem>)
      returns (es: seq<Event>, ms: seq<Modem>)
    requires Acquiring(m, k) && IsRun(AfterAcquiring(m, k), events, states)
    ensures IsRun(m, es, ms) && |states| == |events| + 1 && ms[|es|] == states[|events|]
    decreases ACQUIRE_SYMBOLS - k
  {
    assert WellFormed(m) && Enabled(m, OUT);
    hide Step, Acquiring, IsRun, Acquired;
    AcquisitionGoesOn(m, k);
    var next := Step(Step(m, OUT), Baud(1));
    es, ms := events, states;
    if k + 1 < ACQUIRE_SYMBOLS {
      es, ms := AcquireFirst(next, k + 1, events, states);
    }
    es, ms := PrependBeat(m, 1, es, ms);
  }

  lemma FirstAlternation(m: Modem)
    requires Acquired(m)
    ensures var m1 := Step(m, OUT);
            && Enabled(m, OUT) && WellFormed(m) && WellFormed(m1) && Enabled(m1, Baud(5))
            && Alternating(Step(m1, Baud(5)), 1)
  {
    hide DecodeSymbol, TxSymbol;
    AnsweringGoesOn(m);
  }

  /** Power-up of an answerer, and then a carrier. */
  function CarrierAtPowerUp(compat: bool): (m: Modem)
    ensures Acquiring(m, 0)
  {
    CarrierAppears(Init(2400, false, compat))
  }

  lemma FromPowerUp(compat: bool, events: seq<Event>, states: seq<Modem>) returns (es: seq<Event>, ms: seq<Modem>)
    requires IsRun(AfterAcquiring(CarrierAtPowerUp(compat), 0), events, states)
    ensures IsRun(Init(2400, false, compat), es, ms) && |states| == |events| + 1 && ms[|es|] == states[|events|]
  {
    hide IsRun, AfterAcquiring, Acquiring;
    var m := Init(2400, false, compat);
    es, ms := AcquireFirst(CarrierAtPowerUp(compat), 0, events, states);
    Prepend(m, CarrierUp, es, ms);
    es, ms := [CarrierUp] + es, [m] + ms;
  }

  /** So the implication from 2400 bit/s to 16-way decisions fails on a run from power-up in which both directions
      of the line keep the same pace. */
  lemma MismatchIsReachable(compat: bool) returns (events: seq<Event>, states: seq<Modem>)
    ensures IsRun(Init(2400, false, compat), events, states) && Mismatch(states[|events|])
  {
    hide Step, IsRun, Acquired, Alternating, Mismatch;
    var m := AfterAcquiring(CarrierAtPowerUp(compat), 0);
    FirstAlternation(m);
    var m2 := Step(Step(m, OUT), Baud(5));
    events, states := AlternationEndsLate(m2, 1);
    events, states := PrependBeat(m, 5, events, states);
    events, states := FromPowerUp(compat, events, states);
  }
}
