/** The two clocks of a V.22bis modem, 600 baud out of 8000 samples per second, and what they mean for the
    start-up: the transmitter waits long enough for its own receiver to settle the rate. */
module V22Timing {
  import opened V22DataPath
  import opened V22Handshake

  // ---- The receiver's half-symbol clock ----

  const NOMINAL_HALF: real := 20.0 / 3.0

  /** y counts matched-filter outputs; next is the time of the next half-symbol sample; odd is set after the
      first half of a symbol. */
  datatype Clock = Clock(y: nat, next: real, half: real, odd: bool)

  /** Between samples the next half-symbol instant is never more than two samples in the past. */
  predicate Running(c: Clock) {
    c.next > c.y as real - 2.0 && NOMINAL_HALF - 0.3 <= c.half <= NOMINAL_HALF + 0.3
  }

  function ClampReal(v: real, lo: real, hi: real): (r: real)
    requires lo <= hi
    ensures lo <= r <= hi
  {
    if v < lo then lo else if v > hi then hi else v
  }

  /** The timing loop's nudge from one Gardner error, which is clamped to one. */
  function Nudge(c: Clock, e: real): (c': Clock) {
    var e1 := ClampReal(e, -1.0, 1.0);
    c.(next := c.next + 0.02 * e1, half := ClampReal(c.half + 0.002 * e1, NOMINAL_HALF - 0.3, NOMINAL_HALF + 0.3))
  }

  predicate Emits(c: Clock) {
    c.y as real >= c.next + 1.0
  }

  /** One sample: at most one half-symbol instant falls due, and every second one completes a baud. */
  function Tick(c: Clock, e: real): (r: (Clock, bool)) {
    var c1 := c.(y := c.y + 1);
    if !Emits(c) then (c1, false)
    else
      var c2 := c1.(next := c1.next + c1.half, odd := !c1.odd);
      if c.odd then (Nudge(c2, e), true) else (c2, false)
  }

  /** A positive error delays the next instant and lengthens the period, a negative one does the reverse, by a fiftieth
      and a five-hundredth of the error; only the limits take from that. */
  lemma NudgeFollowsError(c: Clock, e: real)
    requires Running(c)
    ensures var c' := Nudge(c, e);
            && (e > 0.0 ==> c'.next > c.next && c'.half >= c.half && (c.half < NOMINAL_HALF + 0.3 ==> c'.half > c.half))
            && (e < 0.0 ==> c'.next < c.next && c'.half <= c.half && (c.half > NOMINAL_HALF - 0.3 ==> c'.half < c.half))
            && (e == 0.0 ==> c' == c)
            && (-1.0 <= e <= 1.0 ==> 50.0 * (c'.next - c.next) == e)
            && (-1.0 <= e <= 1.0 && -0.298 <= c.half - NOMINAL_HALF <= 0.298 ==> 500.0 * (c'.half - c.half) == e)
  {
  }

  lemma TickKeepsRunning(c: Clock, e: real)
    requires Running(c)
    ensures Running(Tick(c, e).0)
  {
  }

  /** A run of samples with the error of each, and how many bauds it completes. */
  function Ticks(c: Clock, errors: seq<real>): (r: (Clock, nat))
    decreases |errors|
  {
    if errors == [] then (c, 0)
    else
      var before := Ticks(c, errors[..|errors| - 1]);
      var last := Tick(before.0, errors[|errors| - 1]);
      (last.0, before.1 + if last.1 then 1 else 0)
  }

  /** The half-symbol instants that have fallen due, two to a baud. */
  function Halves(c: Clock, bauds: nat, c': Clock): (n: int) {
    2 * bauds + (if c'.odd then 1 else 0) - if c.odd then 1 else 0
  }

  /** The next instant is no further away than a half-symbol. */
  predicate Prompt(c: Clock) {
    Running(c) && c.next <= c.y as real + NOMINAL_HALF + 0.32
  }

  lemma TickCounts(c: Clock, e: real)
    requires Prompt(c)
    ensures var (c', baud) := Tick(c, e);
            var n := Halves(c, if baud then 1 else 0, c');
            var slack := if baud then 0.02 else 0.0;
            && Prompt(c') && c'.y == c.y + 1 && (n == 0 || n == 1) && (baud ==> n == 1)
            && n as real * (NOMINAL_HALF - 0.3) - slack <= c'.next - c.next <= n as real * (NOMINAL_HALF + 0.3) + slack
            && (e == 0.0 && c.half == NOMINAL_HALF ==>
                  c'.half == NOMINAL_HALF && c'.next - c.next == n as real * NOMINAL_HALF)
  {
  }

  /** The receiver's time in any run, whatever the errors: every instant takes a half-symbol, up to the limits of the
      loop, every second one completes a baud, and the next one keeps up with the samples. */
  lemma {:induction false} InstantsInTime(c: Clock, errors: seq<real>)
    requires Prompt(c)
    ensures var (c', bauds) := Ticks(c, errors);
            var n := Halves(c, bauds, c');
            && Prompt(c') && c'.y == c.y + |errors| && n >= 0
            && n as real * (NOMINAL_HALF - 0.3) - 0.02 * bauds as real <= c'.next - c.next
            && c'.next - c.next <= n as real * (NOMINAL_HALF + 0.3) + 0.02 * bauds as real
    decreases |errors|
  {
    hide Tick, Prompt;
    if errors != [] {
      InstantsInTime(c, errors[..|errors| - 1]);
      TickCounts(Ticks(c, errors[..|errors| - 1]).0, errors[|errors| - 1]);
    }
  }

  lemma {:induction false} InstantsUndisturbed(c: Clock, errors: seq<real>)
    requires Prompt(c) && c.half == NOMINAL_HALF && forall i | 0 <= i < |errors| :: errors[i] == 0.0
    ensures var (c', bauds) := Ticks(c, errors);
            && Prompt(c') && c'.y == c.y + |errors| && c'.half == NOMINAL_HALF
            && c'.next - c.next == Halves(c, bauds, c') as real * NOMINAL_HALF
    decreases |errors|
  {
    hide Tick, Prompt;
    if errors != [] {
      InstantsUndisturbed(c, errors[..|errors| - 1]);
      TickCounts(Ticks(c, errors[..|errors| - 1]).0, errors[|errors| - 1]);
    }
  }

  /** 600 baud out of 8000 samples per second: without timing errors, 40 samples for every three bauds, to within
      two bauds over any run. */
  lemma SixHundredBaud(c: Clock, errors: seq<real>)
    requires Prompt(c) && c.half == NOMINAL_HALF && forall i | 0 <= i < |errors| :: errors[i] == 0.0
    ensures -47 < 3 * |errors| - 40 * Ticks(c, errors).1 < 47
  {
    InstantsUndisturbed(c, errors);
    hide Tick, Ticks;
  }

  class ReceiverClock {
    var yCount: nat
    var nextT: real
    var halfPeriod: real
    var half: bool
    var bauds: nat

    function State(): (c: Clock)
      reads this
    {
      Clock(yCount, nextT, halfPeriod, half)
    }

    /** The emission loop for one matched-filter output. picked lists, for each half-symbol sample emitted, how far
        back in the four-sample history the earlier of its two interpolation points lies. At most one instant falls
        due, a due one is emitted and never skipped, and both points, the later one being one step newer, are in
        the history. */
    method Sample(e: real) returns (picked: seq<int>)
      requires Running(State())
      modifies this
      ensures (State(), bauds != old(bauds)) == Tick(old(State()), e)
      ensures bauds == old(bauds) || bauds == old(bauds) + 1
      ensures |picked| == if Emits(old(State())) then 1 else 0
      ensures forall i | 0 <= i < |picked| :: 1 <= picked[i] <= 3 && picked[i] == old(yCount) - old(nextT).Floor
    {
      picked := [];
      yCount := yCount + 1;
      ghost var first := true;
      while (yCount - 1) as real >= nextT + 1.0
        invariant halfPeriod >= 6.0 && yCount == old(yCount) + 1
        invariant first ==> State() == old(State()).(y := yCount) && bauds == old(bauds)
        invariant !first ==> nextT > yCount as real && (State(), bauds != old(bauds)) == Tick(old(State()), e)
        invariant bauds == old(bauds) || bauds == old(bauds) + 1
        invariant |picked| == if first then 0 else 1
        invariant first || Emits(old(State()))
        invariant forall i | 0 <= i < |picked| :: 1 <= picked[i] <= 3 && picked[i] == old(yCount) - old(nextT).Floor
        decreases if first then 1 else 0
      {
        var i0 := nextT.Floor;
        var back0 := yCount - 1 - i0;
        if back0 < 1 || back0 > 3 {
          assert false;  // the source would skip this instant here
        }
        picked := picked + [back0];
        nextT := nextT + halfPeriod;
        half := !half;
        if !half {
          bauds := bauds + 1;
          Timing(e);
        }
        first := false;
      }
    }

    /** symbol_timing, with the Gardner error as input. */
    method Timing(error: real)
      modifies this`nextT, this`halfPeriod
      ensures State() == Nudge(old(State()), error)
    {
      var e := error;
      if e > 1.0 { e := 1.0; }
      if e < -1.0 { e := -1.0; }
      nextT := nextT + 0.02 * e;
      halfPeriod := halfPeriod + 0.002 * e;
      if halfPeriod < NOMINAL_HALF - 0.3 { halfPeriod := NOMINAL_HALF - 0.3; }
      if halfPeriod > NOMINAL_HALF + 0.3 { halfPeriod := NOMINAL_HALF + 0.3; }
    }
  }

  // ---- The transmitter's symbol clock ----

  /** Three steps of a fortieth of a symbol per sample. */
  function Advance(phase: nat): (r: (nat, bool))
    requires phase < 40
    ensures r.0 < 40 && phase + 3 == r.0 + (if r.1 then 40 else 0)
  {
    if phase + 3 >= 40 then (phase - 37, true) else (phase + 3, false)
  }

  // ---- Both clocks and the handshake together ----

  /** lead is how many samples the receiver is ahead of the transmitter; samples are processed in blocks,
      the receiver first, of at most 640. */
  datatype System = System(m: Modem, clock: Clock, warm: nat, phase: nat, lead: nat)

  const WARMUP := 150
  const BLOCK := 640

  datatype Sample =
    | RxSilent                          // no carrier
    | RxOnset                           // this sample brings the carrier up
    | Rx(error: real, nearest: nat)     // carrier present; timing error and decision if a baud completes
    | Tx(bits: seq<bool>)

  predicate Possible(s: System, x: Sample) {
    WellFormed(s.m) && s.phase < 40 &&
    match x
    case RxSilent => !s.m.rx.carrier && s.lead < BLOCK
    case RxOnset => !s.m.rx.carrier && s.lead < BLOCK
    case Rx(_, nearest) => s.m.rx.carrier && s.lead < BLOCK && nearest < 16
    case Tx(bits) => s.lead > 0 && |bits| == BitsPerSymbol(s.m.rate != 1200)
  }

  function WarmClock(c: Clock): (c': Clock) {
    c.(y := c.y + 1, next := (c.y + 1) as real + NOMINAL_HALF)
  }

  /** One sample through the receiver or out of the transmitter, with the carrier held once it is up. */
  function After(s: System, x: Sample): (s': System)
    requires Possible(s, x)
  {
    match x
    case RxSilent => s.(lead := s.lead + 1)
    case RxOnset =>
      s.(m := CarrierAppears(s.m), clock := WarmClock(s.clock.(half := NOMINAL_HALF, odd := false)), warm := 1,
         lead := s.lead + 1)
    case Rx(error, nearest) =>
      if s.warm < WARMUP then s.(clock := WarmClock(s.clock), warm := s.warm + 1, lead := s.lead + 1)
      else
        var tick := Tick(s.clock, error);
        s.(clock := tick.0, m := if tick.1 then ProcessBaud(s.m, nearest) else s.m, lead := s.lead + 1)
    case Tx(bits) =>
      var step := Advance(s.phase);
      s.(phase := step.0, m := if step.1 then TxSymbol(s.m, bits).0 else s.m, lead := s.lead - 1)
  }

  /** The receiver is still looking for, or has not begun to look for, the far end's request for 2400. */
  predicate SearchOpen(m: Modem) {
    || m.rx.stage.SymbolAcquisition? || m.rx.stage.UnscrambledOnes? || m.rx.stage.UnscrambledOnesSustaining?
    || (m.rx.stage.ScrambledOnesAt1200? && m.rate == 1200)
  }

  predicate Searching(m: Modem) {
    m.rx.stage.ScrambledOnesAt1200? && m.rate == 1200
  }

  /** Transmitter time against receiver time since the timed segment began: 40 units to a transmitted symbol,
      3 units to a sample; a received symbol takes at most twice 6.967 + 0.02 samples. */
  predicate InStep(s: System) {
    (40 * s.m.tx.count + s.phase + 3 * s.lead) as real + 3.0 * (s.clock.next - s.clock.y as real)
    <= 1980.0 + 3.0 * ((2 * s.m.rx.count + if s.clock.odd then 1 else 0) as real * (NOMINAL_HALF + 0.3)
                       + 0.02 * s.m.rx.count as real)
  }

  /** Where the transmitter can be while the search is open. */
  predicate Coupled(s: System) {
    && Safe(s.m) && Running(s.clock) && s.phase < 40 && s.lead <= BLOCK
    && (!s.m.rx.carrier || s.warm < WARMUP ==> s.m.rx.stage.SymbolAcquisition?)
    && (SearchOpen(s.m) ==>
         if !s.m.calling then s.m.tx.stage.InitialSilence? || s.m.tx.stage.U11?
         else if Searching(s.m) then s.m.tx.stage.TimedS11? && InStep(s)
         else if s.m.rx.stage.UnscrambledOnesSustaining? then
           s.m.tx.stage.InitialSilence? || s.m.tx.stage.U0011? || s.m.tx.stage.S11?
         else s.m.tx.stage.InitialSilence?)
  }

  /** While the search is open the timed segment still has symbols to go. */
  lemma TimedSegmentHasRoom(s: System)
    requires Coupled(s) && s.m.calling && Searching(s.m)
    ensures s.m.tx.count + 1 < Symbols(756)
  {
    assert s.m.rx.count <= 161;
    assert s.clock.next - s.clock.y as real > -2.0;
  }

  lemma TxKeepsCoupled(s: System, bits: seq<bool>)
    requires Coupled(s) && Possible(s, Tx(bits))
    ensures Coupled(After(s, Tx(bits)))
  {
    hide PhaseStep, SendSymbol, Safe;
    SymbolKeepsSafe(s.m, bits);
    if s.m.calling && Searching(s.m) {
      TimedSegmentHasRoom(s);
    }
  }

  /** A sample without a completed baud keeps the two time scales in step; so does a baud that stays in
      the search. */
  lemma TickKeepsInStep(s: System, error: real, bauds: nat)
    requires Running(s.clock) && InStep(s)
    requires bauds == s.m.rx.count + (if Tick(s.clock, error).1 then 1 else 0)
    ensures InStep(s.(clock := Tick(s.clock, error).0, lead := s.lead + 1, m := s.m.(rx := s.m.rx.(count := bauds))))
  {
  }

  lemma SearchBegins(s: System, error: real)
    requires Running(s.clock) && s.phase < 40 && s.lead < BLOCK && Tick(s.clock, error).1
    requires s.m.tx.count == 0 && s.m.rx.count == 0
    ensures InStep(s.(clock := Tick(s.clock, error).0, lead := s.lead + 1))
  {
  }

  /** What one baud does to the coupling of the stages. */
  lemma BaudKeepsStages(m: Modem, nearest: nat)
    requires Safe(m) && m.rx.carrier && nearest < 16
    ensures var m' := ProcessBaud(m, nearest);
            && m'.rx.carrier && m'.calling == m.calling
            && (Searching(m) && Searching(m') ==> m'.rx.count == m.rx.count + 1 && m'.tx == m.tx)
            && (!Searching(m) && Searching(m') && m.calling ==>
                  && m'.tx.stage.TimedS11? && m'.tx.count == 0 && m'.rx.count == 0
                  && m.rx.stage.UnscrambledOnesSustaining?)
            && (SearchOpen(m') ==> SearchOpen(m))
            && (SearchOpen(m') && !m.calling ==> m'.tx == m.tx)
            && (m'.rx.stage.UnscrambledOnesSustaining? && m'.tx != m.tx ==> m'.tx.stage.U0011? || m'.tx.stage.S11?)
            && (m'.rx.stage.UnscrambledOnesSustaining? ==>
                  m.rx.stage.UnscrambledOnes? || m.rx.stage.UnscrambledOnesSustaining?)
            && (m'.rx.stage.UnscrambledOnes? || m'.rx.stage.SymbolAcquisition? ==>
                  m'.tx == m.tx && (m.rx.stage.UnscrambledOnes? || m.rx.stage.SymbolAcquisition?))
  {
    hide PhaseStep, DecodeSymbol;
  }

  lemma BaudKeepsCoupled(s: System, error: real, nearest: nat)
    requires Coupled(s) && Possible(s, Rx(error, nearest)) && s.warm >= WARMUP && Tick(s.clock, error).1
    ensures Coupled(After(s, Rx(error, nearest)))
  {
    hide ProcessBaud, Safe, Tick, InStep;
    var s' := After(s, Rx(error, nearest));
    BaudKeepsSafe(s.m, nearest);
    BaudKeepsStages(s.m, nearest);
    TickKeepsRunning(s.clock, error);
    if s.m.calling && Searching(s'.m) {
      if Searching(s.m) {
        TickKeepsInStep(s, error, s.m.rx.count + 1);
        SameTimes(s.(clock := s'.clock, lead := s'.lead, m := s.m.(rx := s.m.rx.(count := s.m.rx.count + 1))), s');
      } else {
        SearchBegins(s.(m := s'.m), error);
      }
    }
  }

  lemma SameTimes(s: System, s': System)
    requires InStep(s) && s.clock == s'.clock && s.phase == s'.phase && s.lead == s'.lead
    requires s.m.tx.count == s'.m.tx.count && s.m.rx.count == s'.m.rx.count
    ensures InStep(s')
  {
  }

  lemma RxKeepsCoupled(s: System, error: real, nearest: nat)
    requires Coupled(s) && Possible(s, Rx(error, nearest))
    ensures Coupled(After(s, Rx(error, nearest)))
  {
    if s.warm >= WARMUP && Tick(s.clock, error).1 {
      BaudKeepsCoupled(s, error, nearest);
    } else {
      hide ProcessBaud, Safe, Tick, InStep;
      TickKeepsRunning(s.clock, error);
      if s.warm >= WARMUP && s.m.calling && Searching(s.m) {
        TickKeepsInStep(s, error, s.m.rx.count);
        SameTimes(s.(clock := Tick(s.clock, error).0, lead := s.lead + 1,
                     m := s.m.(rx := s.m.rx.(count := s.m.rx.count))),
                  After(s, Rx(error, nearest)));
      }
    }
  }

  lemma StepKeepsCoupled(s: System, x: Sample)
    requires Coupled(s) && Possible(s, x)
    ensures Coupled(After(s, x))
  {
    match x
    case RxSilent =>
    case RxOnset =>
    case Rx(error, nearest) => RxKeepsCoupled(s, error, nearest);
    case Tx(bits) => TxKeepsCoupled(s, bits);
  }

  // ---- The rate is settled in time ----

  ghost predicate IsSystemRun(s0: System, samples: seq<Sample>, states: seq<System>) {
    && |states| == |samples| + 1 && states[0] == s0
    && forall i | 0 <= i < |samples| :: Possible(states[i], samples[i]) && states[i + 1] == After(states[i], samples[i])
  }

  /** The transmitter has gone on to 2400 training or to data while its own receiver may still settle the rate. */
  predicate Unsettled(m: Modem) {
    (m.tx.stage.S1111? || m.tx.stage.TxNormal?) && SearchOpen(m)
  }

  function PowerUp(maxRate: nat, calling: bool, compat: bool): (s: System) {
    System(Init(maxRate, calling, compat), Clock(0, NOMINAL_HALF, NOMINAL_HALF, false), 0, 0, 0)
  }

  lemma {:induction false} CoupledThroughout(s0: System, samples: seq<Sample>, states: seq<System>, i: nat)
    requires Coupled(s0) && IsSystemRun(s0, samples, states) && i < |states|
    ensures Coupled(states[i])
  {
    hide Coupled, After, Possible;
    if i > 0 {
      CoupledThroughout(s0, samples, states, i - 1);
      StepKeepsCoupled(states[i - 1], samples[i - 1]);
    }
  }

  /** While the carrier is held, at every sample of every run from power-up, for every interleaving in blocks,
      every timing-loop behaviour and every line: a transmitter that has gone on to 2400 training or to data
      did so with its own receiver's search for the 2400 request over. */
  lemma RateSettledInTime(maxRate: nat, calling: bool, compat: bool, samples: seq<Sample>, states: seq<System>, i: nat)
    requires maxRate == 1200 || maxRate == 2400
    requires IsSystemRun(PowerUp(maxRate, calling, compat), samples, states) && i < |states|
    ensures !Unsettled(states[i].m)
  {
    InitIsSafe(maxRate, calling, compat);
    CoupledThroughout(PowerUp(maxRate, calling, compat), samples, states, i);
  }

  /** Once the search is over nothing but a new carrier changes the rate. */
  lemma SettledRateStays(m: Modem, e: Event)
    requires Safe(m) && Enabled(m, e) && !SearchOpen(m) && !e.CarrierUp? && !e.Restart?
    ensures Step(m, e).rate == m.rate && !SearchOpen(Step(m, e))
  {
    hide PhaseStep, SendSymbol, DecodeSymbol;
  }

  // ---- What happens when the carrier is not held ----

  /** A receiver thrown back to acquisition behind a transmitter that has gone on, or a timed segment that ends
      while the search is open. */
  predicate Unsettles(m: Modem, e: Event) {
    || ((e.CarrierUp? || e.Restart?) && (m.tx.stage.S1111? || m.tx.stage.TxNormal?))
    || (e.Symbol? && m.tx.stage.TimedS11? && m.tx.count + 1 == Symbols(756) && SearchOpen(m))
  }

  /** One step leaves the settled states exactly in these two ways. */
  lemma UnsettledExactly(m: Modem, e: Event)
    requires Safe(m) && Enabled(m, e) && !Unsettled(m)
    ensures Unsettled(Step(m, e)) <==> Unsettles(m, e)
  {
    hide PhaseStep, SendSymbol, DecodeSymbol;
  }

  /** A run stays settled throughout if and only if no such step occurs in it. */
  lemma SettledThroughoutExactly(m0: Modem, events: seq<Event>, states: seq<Modem>)
    requires Safe(m0) && !Unsettled(m0) && IsRun(m0, events, states)
    ensures (forall i | 0 <= i < |states| :: !Unsettled(states[i]))
            <==> (forall j | 0 <= j < |events| :: !Unsettles(states[j], events[j]))
  {
    hide Step, Safe, Unsettled, Unsettles;
    if i :| 0 <= i < |states| && Unsettled(states[i]) {
      var j := UnsettledHasOrigin(m0, events, states, i);
      assert Unsettles(states[j], events[j]);
    } else {
      forall j | 0 <= j < |events| ensures !Unsettles(states[j], events[j]) {
        SafeThroughout(m0, events, states, j);
        UnsettledExactly(states[j], events[j]);
        assert !Unsettled(states[j + 1]);
      }
    }
  }

  /** Every unsettled state of every run has such a step earlier in the run, and has been unsettled ever since. */
  lemma {:induction false} UnsettledHasOrigin(m0: Modem, events: seq<Event>, states: seq<Modem>, i: nat)
      returns (j: nat)
    requires Safe(m0) && !Unsettled(m0) && IsRun(m0, events, states) && i < |states| && Unsettled(states[i])
    ensures j < i && !Unsettled(states[j]) && Unsettles(states[j], events[j])
    ensures forall k | j < k <= i :: Unsettled(states[k])
  {
    hide Step, Safe, Unsettled, Unsettles;
    SafeThroughout(m0, events, states, i - 1);
    if Unsettled(states[i - 1]) {
      j := UnsettledHasOrigin(m0, events, states, i - 1);
    } else {
      UnsettledExactly(states[i - 1], events[i - 1]);
      j := i - 1;
    }
  }

  // ---- ... and a carrier loss does it, from power-up ----

  /** k bauds into a search for S1 that sees nothing but one point. */
  predicate SearchingInVain(m: Modem, k: nat) {
    && Answering(m) && m.rx.stage.ScrambledOnesAt1200? && m.rx.count == k && k < Symbols(270)
    && m.rx.repeats == 0 && m.rx.last / 4 == 0 && m.rx.lastRaw == 1
  }

  /** k symbols into the timed segment, with the receiver's search over. */
  predicate Timed(m: Modem, k: nat) {
    && WellFormed(m) && !m.calling && m.rate == 1200 && m.rx.carrier && !m.rx.sixteenWay
    && m.tx.stage.TimedS11? && m.tx.count == k && k < Symbols(756)
    && (m.rx.stage.ScrambledOnesAt1200Sustaining? || m.rx.stage.RxNormal?)
  }

  lemma SearchGoesOn(m: Modem, k: nat)
    requires SearchingInVain(m, k)
    ensures var m1 := Step(m, OUT);
            && WellFormed(m) && Enabled(m, OUT) && WellFormed(m1) && Enabled(m1, Baud(1))
            && var next := Step(m1, Baud(1));
               if k + 1 < Symbols(270) then SearchingInVain(next, k + 1) else Timed(next, 0)
  {
    hide DecodeSymbol, TxSymbol;
    AnsweringGoesOn(m);
  }

  lemma SegmentGoesOn(m: Modem, k: nat)
    requires Timed(m, k) && k + 1 < Symbols(756)
    ensures var m1 := Step(m, OUT);
            && WellFormed(m) && Enabled(m, OUT) && WellFormed(m1) && Enabled(m1, Baud(1))
            && Timed(Step(m1, Baud(1)), k + 1)
  {
    hide PhaseStep, SendSymbol, DecodeSymbol;
  }

  /** At the last symbol of the segment: the carrier goes, comes back, and the transmitter enters data while its
      receiver has only begun to acquire. */
  lemma CarrierLossUnsettles(m: Modem)
    requires Timed(m, Symbols(756) - 1)
    ensures var m1 := Step(m, CarrierDown);
            var m2 := Step(m1, CarrierUp);
            && WellFormed(m) && Enabled(m, CarrierDown) && Enabled(m1, CarrierUp) && Enabled(m2, OUT)
            && Unsettled(Step(m2, OUT))
  {
    hide PhaseStep, SendSymbol;
  }

  lemma {:induction false} SegmentLeadsOn(m: Modem, k: nat) returns (events: seq<Event>, states: seq<Modem>)
    requires Timed(m, k)
    ensures IsRun(m, events, states) && |states| == |events| + 1 && Unsettled(states[|events|])
    decreases Symbols(756) - k
  {
    assert k < Symbols(756);
    hide Step, Timed, Unsettled, IsRun;
    if k + 1 < Symbols(756) {
      SegmentGoesOn(m, k);
      events, states := SegmentLeadsOn(Step(Step(m, OUT), Baud(1)), k + 1);
      events, states := PrependBeat(m, 1, events, states);
    } else {
      CarrierLossUnsettles(m);
      var m1 := Step(m, CarrierDown);
      var m2 := Step(m1, CarrierUp);
      EmptyRun(Step(m2, OUT));
      Prepend(m2, OUT, [], [Step(m2, OUT)]);
      Prepend(m1, CarrierUp, [OUT] + [], [m2] + [Step(m2, OUT)]);
      events, states := [CarrierUp] + ([OUT] + []), [m1] + ([m2] + [Step(m2, OUT)]);
      Prepend(m, CarrierDown, events, states);
      events, states := [CarrierDown] + events, [m] + states;
    }
  }

  lemma {:induction false} SearchLeadsOn(m: Modem, k: nat) returns (events: seq<Event>, states: seq<Modem>)
    requires SearchingInVain(m, k)
    ensures IsRun(m, events, states) && |states| == |events| + 1 && Unsettled(states[|events|])
    decreases Symbols(270) - k
  {
    hide Step, SearchingInVain, Timed, Unsettled, IsRun;
    SearchGoesOn(m, k);
    var next := Step(Step(m, OUT), Baud(1));
    if k + 1 < Symbols(270) {
      events, states := SearchLeadsOn(next, k + 1);
    } else {
      events, states := SegmentLeadsOn(next, 0);
    }
    events, states := PrependBeat(m, 1, events, states);
  }

  /** An explicit run from power-up in which one carrier loss leaves the modem unsettled. */
  lemma UnsettledIsReachable(compat: bool) returns (events: seq<Event>, states: seq<Modem>)
    ensures IsRun(Init(2400, false, compat), events, states) && |states| == |events| + 1
    ensures Unsettled(states[|events|])
  {
    hide Step, IsRun, Unsettled;
    var m := AfterAcquiring(CarrierAtPowerUp(compat), 0);
    events, states := SearchLeadsOn(m, 0);
    events, states := FromPowerUp(compat, events, states);
  }
}
