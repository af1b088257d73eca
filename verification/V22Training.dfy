/** What the training segments of V.22bis put on the line, and what the far end makes of them. */
module V22Training {
  import opened ByteBits
  import opened Sequences
  import opened V22Constellation
  import opened V22DataPath
  import opened V22Handshake
  import opened V22Scrambler

  // ---- Runs of symbols and of bauds ----

  function Wide(m: Modem): (wide: bool) {
    m.rate != 1200
  }

  /** Source bits for a run of symbols, of which training takes no notice. */
  predicate Supply(wide: bool, source: seq<seq<bool>>) {
    forall i | 0 <= i < |source| :: |source[i]| == BitsPerSymbol(wide)
  }

  lemma RateKept(m: Modem, bits: seq<bool>)
    requires WellFormed(m) && |bits| == BitsPerSymbol(Wide(m))
    ensures TxSymbol(m, bits).0.rate == m.rate && TxSymbol(m, bits).0.rx == m.rx
    ensures TxSymbol(m, bits).0.tx.taps == m.tx.taps
    ensures TxSymbol(m, bits).1.Sent? ==> TxSymbol(m, bits).1.idx < 16
  {
    hide SendSymbol, PhaseStep;
  }

  lemma Quadrants(m: Modem)
    requires WellFormed(m)
    ensures m.tx.quadrant < 4 && m.rx.last < 16 && m.tx.taps.Valid() && m.rx.taps.Valid() && m.rx.lastRaw < 4
  {
  }

  /** The indices sent over a run of symbols. */
  function SendAll(m: Modem, source: seq<seq<bool>>): (r: (Modem, seq<nat>))
    requires WellFormed(m) && Supply(Wide(m), source)
    ensures WellFormed(r.0) && Indices(r.1)
    decreases |source|
  {
    hide TxSymbol, WellFormed;
    if source == [] then (m, [])
    else
      RateKept(m, source[0]);
      var (m', out) := TxSymbol(m, source[0]);
      var rest := SendAll(m', source[1..]);
      (rest.0, (if out.Sent? then [out.idx] else []) + rest.1)
  }

  lemma SendAllUnfolds(m: Modem, source: seq<seq<bool>>)
    requires WellFormed(m) && Supply(Wide(m), source) && source != []
    ensures |source[0]| == BitsPerSymbol(Wide(m))
    ensures var (m', out) := TxSymbol(m, source[0]);
            && Wide(m') == Wide(m) && m'.rate == m.rate && m'.rx == m.rx && m'.tx.taps == m.tx.taps
            && Supply(Wide(m'), source[1..])
            && var rest := SendAll(m', source[1..]);
               SendAll(m, source) == (rest.0, (if out.Sent? then [out.idx] else []) + rest.1)
  {
    hide TxSymbol, WellFormed;
    RateKept(m, source[0]);
  }

  /** The modem after a run of decided bauds. */
  function Hear(m: Modem, idxs: seq<nat>): (m': Modem)
    requires WellFormed(m) && Indices(idxs)
    ensures WellFormed(m')
    decreases |idxs|
  {
    hide ProcessBaud, WellFormed;
    if idxs == [] then m else Hear(ProcessBaud(m, idxs[0]), idxs[1..])
  }

  /** The dibits that the changes of quadrant stand for, counted from a first reference. */
  function DibitsRead(last: nat, idxs: seq<nat>): (dibits: seq<nat>)
    requires last < 16 && Indices(idxs)
    ensures |dibits| == |idxs|
    decreases |idxs|
  {
    if idxs == [] then []
    else [DibitOf(last, idxs[0])] + DibitsRead(idxs[0], idxs[1..])
  }

  // ---- Unscrambled training ----

  /** A training symbol that turns the quadrant by the step of a dibit. */
  predicate SendsDibit(m: Modem, bits: seq<bool>, dibit: nat)
    requires WellFormed(m) && |bits| == BitsPerSymbol(Wide(m)) && dibit < 4
  {
    var (m', out) := TxSymbol(m, bits);
    var q := NextQuadrant(m.tx.quadrant, dibit);
    out == Sent(4 * q + 1) && m'.tx.quadrant == q && m'.tx.scr == m.tx.scr
  }

  /** The answerer's unscrambled ones: every symbol a dibit 11. */
  lemma SymbolOfU11(m: Modem, bits: seq<bool>)
    requires WellFormed(m) && |bits| == BitsPerSymbol(Wide(m)) && m.tx.stage.U11?
    ensures SendsDibit(m, bits, 3)
    ensures TxSymbol(m, bits).0 == m.(tx := m.tx.(quadrant := TxSymbol(m, bits).0.tx.quadrant))
  {
    hide PhaseStep;
  }

  function S1Dibit(count: nat): (dibit: nat)
    ensures dibit == 0 || dibit == 3
  {
    if count % 2 == 0 then 0 else 3
  }

  /** S1: dibits 00 and 11 in turn, 60 symbols of them. */
  lemma SymbolOfS1(m: Modem, bits: seq<bool>)
    requires WellFormed(m) && |bits| == BitsPerSymbol(Wide(m)) && m.tx.stage.U0011? && m.tx.count < 60
    ensures SendsDibit(m, bits, S1Dibit(m.tx.count))
    ensures var m', q := TxSymbol(m, bits).0, TxSymbol(m, bits).0.tx.quadrant;
            m' == m.(tx := if m.tx.count < 59 then m.tx.(quadrant := q, count := m.tx.count + 1)
                           else if m.calling then m.tx.(quadrant := q, count := 0, stage := S11)
                           else m.tx.(quadrant := q, count := 153, stage := TimedS11))
  {
    hide PhaseStep;
    assert 3 * (m.tx.count % 2) == if m.tx.count % 2 == 0 then 0 else 3;
  }

  /** The decided index has the quadrant that was sent, turned by k right angles. */
  predicate Refers(last: nat, quadrant: nat, k: nat) {
    last < 16 && last / 4 == (quadrant + k) % 4
  }

  /** What a point of the smaller constellation is decided as. */
  function Decided(quadrant: nat, k: nat): (nearest: nat)
    requires quadrant < 4 && k < 4
    ensures Refers(nearest, quadrant, k)
  {
    TurnedIndex(quadrant, 1, k);
    (4 * quadrant + 1 + 4 * k) % 16
  }

  /** The dibit read from a change of index. */
  function DibitOf(last: nat, nearest: nat): (dibit: nat)
    requires last < 16 && nearest < 16
    ensures dibit < 4
  {
    PhaseStep((nearest / 4 - last / 4) % 4)
  }

  function NextQuadrant(quadrant: nat, dibit: nat): (q: nat)
    requires dibit < 4
    ensures q < 4
  {
    (quadrant + PhaseStep(dibit)) % 4
  }

  /** A receiver with the right reference reads the dibit that was sent. */
  lemma DibitRead(q: nat, dibit: nat, k: nat, last: nat)
    requires q < 4 && dibit < 4 && k < 4 && Refers(last, q, k)
    ensures DibitOf(last, Decided(NextQuadrant(q, dibit), k)) == dibit
  {
    hide PhaseStep, Decided;
    StepBetween(q, PhaseStep(dibit), k);
    PhaseStepUndoesItself(dibit);
  }

  predicate Alternates(dibits: seq<nat>, first: nat) {
    forall i | 0 <= i < |dibits| :: dibits[i] == if i % 2 == 0 then first else 3 - first
  }

  lemma AlternatesFurther(first: nat, rest: seq<nat>)
    requires (first == 0 || first == 3) && Alternates(rest, 3 - first)
    ensures Alternates([first] + rest, first)
  {
    var all := [first] + rest;
    forall i | 0 <= i < |all| ensures all[i] == if i % 2 == 0 then first else 3 - first {
      if i > 0 {
        assert all[i] == rest[i - 1];
      }
    }
  }

  function LastOf(last: nat, idxs: seq<nat>): (l: nat) {
    if idxs == [] then last else idxs[|idxs| - 1]
  }

  /** One symbol in front of a run. */
  lemma OneSymbolSent(m: Modem, source: seq<seq<bool>>, k: nat, dibit: nat, last: nat)
    requires WellFormed(m) && Supply(Wide(m), source) && source != [] && dibit < 4 && k < 4
    requires SendsDibit(m, source[0], dibit) && Refers(last, m.tx.quadrant, k)
    ensures var m' := TxSymbol(m, source[0]).0;
            && m'.tx.quadrant < 4 && Supply(Wide(m'), source[1..])
            && var rest := SendAll(m', source[1..]);
               var nearest := Decided(m'.tx.quadrant, k);
               && SendAll(m, source).0 == rest.0 && |SendAll(m, source).1| == 1 + |rest.1|
               && Turned(k, SendAll(m, source).1) == [nearest] + Turned(k, rest.1)
               && DibitsRead(last, Turned(k, SendAll(m, source).1))
                  == [dibit] + DibitsRead(nearest, Turned(k, rest.1))
  {
    hide *;
    Quadrants(m);
    FirstSupply(m, source);
    SentFirst(m, source, dibit);
    assert last < 16 by { ReferenceRange(last, m.tx.quadrant, k); }
    DibitRead(m.tx.quadrant, dibit, k, last);
    var m' := TxSymbol(m, source[0]).0;
    HeardFirst(last, m'.tx.quadrant, k, SendAll(m', source[1..]).1);
  }

  lemma FirstSupply(m: Modem, source: seq<seq<bool>>)
    requires Supply(Wide(m), source) && source != []
    ensures |source[0]| == BitsPerSymbol(m.rate != 1200) == BitsPerSymbol(Wide(m))
  {
  }

  lemma ReferenceRange(last: nat, quadrant: nat, k: nat)
    requires Refers(last, quadrant, k)
    ensures last < 16
  {
  }

  lemma SentFirst(m: Modem, source: seq<seq<bool>>, dibit: nat)
    requires WellFormed(m) && Supply(Wide(m), source) && source != [] && dibit < 4 && SendsDibit(m, source[0], dibit)
    ensures var m' := TxSymbol(m, source[0]).0;
            && m'.tx.quadrant == NextQuadrant(m.tx.quadrant, dibit) && Supply(Wide(m'), source[1..])
            && var rest := SendAll(m', source[1..]);
               SendAll(m, source) == (rest.0, [4 * m'.tx.quadrant + 1] + rest.1)
  {
    hide TxSymbol, PhaseStep, WellFormed, SendAll, Supply, Wide, NextQuadrant;
    SendAllUnfolds(m, source);
  }

  lemma HeardFirst(last: nat, quadrant: nat, k: nat, rest: seq<nat>)
    requires last < 16 && quadrant < 4 && k < 4
    ensures Indices(Turned(k, rest)) && Indices(Turned(k, [4 * quadrant + 1] + rest))
    ensures var nearest := Decided(quadrant, k);
            && Turned(k, [4 * quadrant + 1] + rest) == [nearest] + Turned(k, rest)
            && DibitsRead(last, [nearest] + Turned(k, rest))
               == [DibitOf(last, nearest)] + DibitsRead(nearest, Turned(k, rest))
  {
    TurnedUnfolds(k, 4 * quadrant + 1, rest);
    TurnedStays(k, rest);
    TurnedStays(k, [4 * quadrant + 1] + rest);
    var nearest := Decided(quadrant, k);
    assert nearest < 16 && nearest == (4 * quadrant + 1 + 4 * k) % 16;
    hide Decided, Turned, DibitsRead, DibitOf;
    DibitsReadCons(last, Decided(quadrant, k), Turned(k, rest));
  }

  lemma TurnedStays(k: nat, idxs: seq<nat>)
    requires k < 4
    ensures Indices(Turned(k, idxs))
  {
  }

  lemma DibitsReadCons(last: nat, idx: nat, rest: seq<nat>)
    requires last < 16 && idx < 16 && Indices(rest)
    ensures Indices([idx] + rest)
    ensures DibitsRead(last, [idx] + rest) == [DibitOf(last, idx)] + DibitsRead(idx, rest)
  {
    hide PhaseStep;
    assert ([idx] + rest)[1..] == rest;
  }

  lemma S1DibitsAlternate(count: nat)
    ensures S1Dibit(count + 1) == 3 - S1Dibit(count)
  {
  }

  /** S1 as the far end reads it: under any right-angle turn, 00 and 11 alternate from the first symbol to the last. */
  lemma {:induction false} S1OnTheLine(m: Modem, source: seq<seq<bool>>, k: nat, last: nat, first: nat)
    requires WellFormed(m) && Supply(Wide(m), source) && k < 4 && Refers(last, m.tx.quadrant, k)
    requires source != [] ==> m.tx.stage.U0011? && m.tx.count + |source| <= 60 && first == S1Dibit(m.tx.count)
    requires first == 0 || first == 3
    ensures var idxs := SendAll(m, source).1;
            |idxs| == |source| && Alternates(DibitsRead(last, Turned(k, idxs)), first)
    decreases |source|
  {
    if source != [] {
      hide *;
      FirstSupply(m, source);
      SymbolOfS1(m, source[0]);
      OneSymbolSent(m, source, k, first, last);
      var m' := TxSymbol(m, source[0]).0;
      var nearest := Decided(m'.tx.quadrant, k);
      S1DibitsAlternate(m.tx.count);
      S1OnTheLine(m', source[1..], k, nearest, 3 - first);
      AlternatesFurther(first, DibitsRead(nearest, Turned(k, SendAll(m', source[1..]).1)));
    }
  }

  /** After its 60 symbols a caller goes on to scrambled ones and an answerer to the timed segment. */
  lemma {:induction false} S1Leaves(m: Modem, source: seq<seq<bool>>)
    requires WellFormed(m) && Supply(Wide(m), source) && source != []
    requires m.tx.stage.U0011? && m.tx.count + |source| == 60
    ensures var m' := SendAll(m, source).0;
            && m'.rx == m.rx && m'.rate == m.rate && m'.tx.scr == m.tx.scr
            && (if m.calling then m'.tx.stage == S11 && m'.tx.count == 0
                else m'.tx.stage == TimedS11 && m'.tx.count == 153)
    decreases |source|
  {
    hide TxSymbol, WellFormed;
    RateKept(m, source[0]);
    SymbolOfS1(m, source[0]);
    var m' := TxSymbol(m, source[0]).0;
    if |source| > 1 {
      S1Leaves(m', source[1..]);
    } else {
      assert source[1..] == [];
    }
  }

  /** The answerer's unscrambled ones are read as steady 11. */
  lemma {:induction false} U11OnTheLine(m: Modem, source: seq<seq<bool>>, k: nat, last: nat)
    requires WellFormed(m) && Supply(Wide(m), source) && k < 4 && Refers(last, m.tx.quadrant, k)
    requires m.tx.stage.U11?
    ensures var (m', idxs) := SendAll(m, source);
            && |idxs| == |source| && m' == m.(tx := m.tx.(quadrant := m'.tx.quadrant))
            && forall i | 0 <= i < |source| :: DibitsRead(last, Turned(k, idxs))[i] == 3
    decreases |source|
  {
    if source != [] {
      hide TxSymbol, PhaseStep, WellFormed, DibitsRead, SendAll, Turned, Decided, DibitOf, Refers;
      SymbolOfU11(m, source[0]);
      OneSymbolSent(m, source, k, 3, last);
      var m' := TxSymbol(m, source[0]).0;
      U11OnTheLine(m', source[1..], k, Decided(m'.tx.quadrant, k));
    }
  }

  // ---- Waiting for scrambled ones at 2400 bit/s ----

  /** All bits that a run of bauds decodes to. */
  function BaudBits(rx: RxState, idxs: seq<nat>): (bits: seq<bool>)
    requires rx.taps.Valid() && rx.last < 16 && Indices(idxs)
    ensures |bits| == BitCount(rx.sixteenWay, |idxs|)
  {
    DescrambleRun(rx.taps, rx.scr, UnmapRun(rx.sixteenWay, rx.last, idxs)).1
  }

  /** Which bauds decode to four ones. */
  function FourOnes(bits: seq<bool>, bauds: nat): (flags: seq<bool>)
    requires |bits| == 4 * bauds
    ensures |flags| == bauds
  {
    seq(bauds, j requires 0 <= j < bauds => bits[4 * j] && bits[4 * j + 1] && bits[4 * j + 2] && bits[4 * j + 3])
  }

  predicate NineInARow(flags: seq<bool>) {
    exists i :: 0 <= i <= |flags| - 9 && NineFrom(flags, i)
  }

  predicate NineFrom(flags: seq<bool>, i: nat)
    requires i + 9 <= |flags|
  {
    forall j | i <= j < i + 9 :: flags[j]
  }

  lemma ZeroRestarts(c: nat, rest: seq<bool>)
    requires c < 9
    ensures NineInARow(Ones(c) + ([false] + rest)) <==> NineInARow(rest)
  {
    var all := Ones(c) + ([false] + rest);
    assert !all[c];
    if NineInARow(all) {
      var i :| 0 <= i <= |all| - 9 && NineFrom(all, i);
      assert i > c;
      assert NineFrom(rest, i - c - 1) by {
        forall j | i - c - 1 <= j < i - c + 8 ensures rest[j] {
          assert all[j + c + 1] == rest[j];
        }
      }
    }
    if NineInARow(rest) {
      var i :| 0 <= i <= |rest| - 9 && NineFrom(rest, i);
      assert NineFrom(all, i + c + 1) by {
        forall j | i + c + 1 <= j < i + c + 10 ensures all[j] {
          assert all[j] == rest[j - c - 1];
        }
      }
    }
  }

  lemma OneGoesOn(c: nat, rest: seq<bool>)
    ensures Ones(c) + ([true] + rest) == Ones(c + 1) + rest
  {
  }

  lemma NineOnes(rest: seq<bool>)
    ensures NineInARow(Ones(9) + rest)
  {
    assert NineFrom(Ones(9) + rest, 0);
  }

  /** How one more baud counts. */
  lemma NineStep(c: nat, flag: bool, rest: seq<bool>)
    requires c < 9
    ensures var n := if flag then c + 1 else 0;
            NineInARow(Ones(c) + ([flag] + rest)) <==> n >= 9 || NineInARow(Ones(n) + rest)
  {
    hide NineInARow;
    if flag {
      OneGoesOn(c, rest);
      NineOnes(rest);
    } else {
      ZeroRestarts(c, rest);
      assert Ones(0) + rest == rest;
    }
  }

  lemma TooFew(c: nat)
    requires c < 9
    ensures !NineInARow(Ones(c))
  {
  }

  /** The first baud's bits, and then those of the others. */
  lemma BaudBitsUnfold(rx: RxState, idxs: seq<nat>)
    requires rx.taps.Valid() && rx.last < 16 && Indices(idxs) && idxs != []
    ensures var (rx', bits) := DecodeBaud(rx, idxs[0]);
            && rx'.taps == rx.taps && rx'.last == idxs[0] && rx'.sixteenWay == rx.sixteenWay
            && BaudBits(rx, idxs) == bits + BaudBits(rx', idxs[1..])
  {
    hide UnmapSymbol, DescrambleBit, BitCount;
    assert idxs == [idxs[0]] + idxs[1..];
    UnmapRunUnfolds(rx.sixteenWay, rx.last, idxs[0], idxs[1..]);
    DescrambleInPieces(rx.taps, rx.scr, UnmapSymbol(rx.sixteenWay, rx.last, idxs[0]),
                       UnmapRun(rx.sixteenWay, idxs[0], idxs[1..]));
  }

  lemma FourOnesUnfold(bits: seq<bool>, rest: seq<bool>, bauds: nat)
    requires |bits| == 4 && |rest| == 4 * bauds
    ensures FourOnes(bits + rest, bauds + 1) == [bits == [true, true, true, true]] + FourOnes(rest, bauds)
  {
    var all := bits + rest;
    forall j | 0 <= j < bauds
      ensures FourOnes(all, bauds + 1)[j + 1] == FourOnes(rest, bauds)[j]
    {
      assert all[4 * (j + 1)] == rest[4 * j] && all[4 * (j + 1) + 1] == rest[4 * j + 1];
      assert all[4 * (j + 1) + 2] == rest[4 * j + 2] && all[4 * (j + 1) + 3] == rest[4 * j + 3];
    }
  }

  lemma {:induction false} NormalStays(m: Modem, idxs: seq<nat>)
    requires WellFormed(m) && m.rx.stage.RxNormal? && Indices(idxs)
    ensures Hear(m, idxs).rx.stage.RxNormal? && Hear(m, idxs).tx == m.tx && Hear(m, idxs).rate == m.rate
    ensures Hear(m, idxs).rx.sixteenWay == m.rx.sixteenWay
    decreases |idxs|
  {
    if idxs != [] {
      NormalBaud(m, idxs[0]);
      NormalStays(ProcessBaud(m, idxs[0]), idxs[1..]);
    }
  }

  lemma NormalBaud(m: Modem, nearest: nat)
    requires WellFormed(m) && m.rx.stage.RxNormal? && nearest < 16
    ensures var m' := ProcessBaud(m, nearest);
            m'.rx.stage.RxNormal? && m'.tx == m.tx && m'.rate == m.rate && m'.rx.sixteenWay == m.rx.sixteenWay
  {
    hide PhaseStep, DecodeSymbol;
  }

  /** One baud of the wait. */
  lemma WaitBaud(m: Modem, nearest: nat)
    requires WellFormed(m) && m.rx.stage.WaitForScrambledOnesAt2400? && m.rx.sixteenWay && nearest < 16
    ensures var m', d := ProcessBaud(m, nearest), DecodeBaud(m.rx, nearest);
            var n := if d.1 == [true, true, true, true] then m.rx.repeats + 1 else 0;
            && WellFormed(m') && m'.tx == m.tx && m'.rate == m.rate && m'.maxRate == m.maxRate
            && m'.calling == m.calling
            && m'.rx == d.0.(repeats := n, lastRaw := m'.rx.lastRaw,
                             stage := if n >= 9 then RxNormal else WaitForScrambledOnesAt2400)
  {
    hide PhaseStep, DecodeSymbol;
  }

  /** The wait for 2400 bit/s data ends exactly when nine bauds in a row have decoded to four ones each. */
  lemma {:induction false} WaitEndsExactly(m: Modem, idxs: seq<nat>)
    requires WellFormed(m) && m.rx.stage.WaitForScrambledOnesAt2400? && m.rx.sixteenWay && m.rx.repeats < 9
    requires Indices(idxs)
    ensures |BaudBits(m.rx, idxs)| == 4 * |idxs|
    ensures var m', flags := Hear(m, idxs), FourOnes(BaudBits(m.rx, idxs), |idxs|);
            && (m'.rx.stage.RxNormal? <==> NineInARow(Ones(m.rx.repeats) + flags))
            && (m'.rx.stage.RxNormal? || m'.rx.stage.WaitForScrambledOnesAt2400?)
            && m'.tx == m.tx && m'.rate == m.rate && m'.rx.sixteenWay
    decreases |idxs|
  {
    hide ProcessBaud, DecodeBaud, WellFormed, BaudBits, FourOnes, NineInARow;
    Quadrants(m);
    if idxs == [] {
      assert Ones(m.rx.repeats) + FourOnes(BaudBits(m.rx, idxs), 0) == Ones(m.rx.repeats);
      TooFew(m.rx.repeats);
    } else {
      WaitBaud(m, idxs[0]);
      BaudBitsUnfold(m.rx, idxs);
      var m', d := ProcessBaud(m, idxs[0]), DecodeBaud(m.rx, idxs[0]);
      FourOnesUnfold(d.1, BaudBits(d.0, idxs[1..]), |idxs| - 1);
      var rest := FourOnes(BaudBits(d.0, idxs[1..]), |idxs| - 1);
      NineStep(m.rx.repeats, d.1 == [true, true, true, true], rest);
      if m'.rx.stage.RxNormal? {
        NormalStays(m', idxs[1..]);
      } else {
        WaitEndsExactly(m', idxs[1..]);
        SameBits(d.0, m'.rx, idxs[1..]);
      }
    }
  }

  lemma SameBits(rx: RxState, rx': RxState, idxs: seq<nat>)
    requires rx.taps.Valid() && rx.last < 16 && Indices(idxs)
    requires rx'.taps == rx.taps && rx'.scr == rx.scr && rx'.last == rx.last && rx'.sixteenWay == rx.sixteenWay
    ensures BaudBits(rx', idxs) == BaudBits(rx, idxs)
  {
  }

  // ---- Scrambled training ----

  /** The stages that send scrambled ones, and for how many symbols more. */
  predicate SendsOnes(m: Modem, wide: bool, n: nat) {
    n > 0 ==>
      match m.tx.stage
      case S11 => !wide
      case TimedS11 => !wide && m.tx.count + n <= 453
      case S1111 => wide && m.tx.count + n <= 120
      case _ => false
  }

  function SenderOf(m: Modem): (tx: Sender)
    ensures tx.quadrant == m.tx.quadrant
  {
    Sender(m.tx.scr, m.tx.quadrant)
  }

  lemma SymbolOfOnes(m: Modem, bits: seq<bool>, wide: bool, n: nat)
    requires WellFormed(m) && |bits| == BitsPerSymbol(Wide(m)) && SendsOnes(m, wide, n) && n > 0
    ensures m.tx.taps.Valid() && m.tx.quadrant < 4
    ensures var (m', out) := TxSymbol(m, bits);
            var sent := SendSymbol(m.tx.taps, wide, SenderOf(m), Ones(BitsPerSymbol(wide)));
            && out == Sent(sent.1) && SenderOf(m') == sent.0 && SendsOnes(m', wide, n - 1)
            && m' == m.(tx := m.tx.(scr := sent.0.scr, quadrant := sent.0.quadrant, count := m'.tx.count,
                                    stage := m'.tx.stage))
  {
    hide SendSymbol, PhaseStep;
    assert Ones(BitsPerSymbol(wide)) == if wide then [true, true, true, true] else [true, true];
  }

  /** They are the scrambled, mapped ones of the data path. */
  lemma {:induction false} OnesOnTheLine(m: Modem, source: seq<seq<bool>>, wide: bool)
    requires WellFormed(m) && Supply(Wide(m), source) && SendsOnes(m, wide, |source|)
    ensures m.tx.taps.Valid() && m.tx.quadrant < 4 && Whole(wide, BitCount(wide, |source|))
    ensures var (m', idxs) := SendAll(m, source);
            (SenderOf(m'), idxs) == SendRun(m.tx.taps, wide, SenderOf(m), Ones(BitCount(wide, |source|)))
    decreases |source|
  {
    hide *;
    Quadrants(m);
    CountWhole(wide, |source|);
    if source == [] {
      NoOnes(m, source, wide);
    } else {
      FirstSupply(m, source);
      SendAllUnfolds(m, source);
      SymbolOfOnes(m, source[0], wide, |source|);
      OnesOnTheLine(TxSymbol(m, source[0]).0, source[1..], wide);
      FirstOnes(m.tx.taps, wide, SenderOf(m), |source|);
    }
  }

  lemma NoOnes(m: Modem, source: seq<seq<bool>>, wide: bool)
    requires WellFormed(m) && Supply(Wide(m), source) && source == []
    ensures m.tx.taps.Valid() && m.tx.quadrant < 4 && Whole(wide, BitCount(wide, 0))
    ensures SendAll(m, source) == (m, []) && Ones(BitCount(wide, 0)) == []
    ensures SendRun(m.tx.taps, wide, SenderOf(m), Ones(BitCount(wide, 0))) == (SenderOf(m), [])
  {
    NothingSent(m.tx.taps, wide, SenderOf(m));
    OneMoreSymbol(wide, 0);
    assert Ones(0) == [];
  }

  /** The first of some symbols of scrambled ones. */
  lemma FirstOnes(t: Taps, wide: bool, tx: Sender, symbols: nat)
    requires t.Valid() && tx.quadrant < 4 && symbols > 0
    ensures Whole(wide, BitCount(wide, symbols)) && Whole(wide, BitCount(wide, symbols - 1))
    ensures var first := SendSymbol(t, wide, tx, Ones(BitsPerSymbol(wide)));
            first.0.quadrant < 4
            && var rest := SendRun(t, wide, first.0, Ones(BitCount(wide, symbols - 1)));
               SendRun(t, wide, tx, Ones(BitCount(wide, symbols))) == (rest.0, [first.1] + rest.1)
  {
    CountWhole(wide, symbols);
    CountWhole(wide, symbols - 1);
    OneMoreSymbol(wide, symbols - 1);
    hide SendSymbol, SendRun, BitCount, Whole, Transmitted, IsCandidate;
    var n, all := BitsPerSymbol(wide), Ones(BitCount(wide, symbols));
    assert all[..n] == Ones(n) && all[n..] == Ones(BitCount(wide, symbols - 1));
    SendRunUnfolds(t, wide, tx, all);
  }

  lemma CountWhole(wide: bool, symbols: nat)
    ensures Whole(wide, BitCount(wide, symbols))
  {
    if wide {
      assert 4 * symbols % 4 == 0;
    } else {
      assert 2 * symbols % 2 == 0;
    }
  }

  /** A synchronised receiver decodes nothing but ones from them. */
  lemma OnesDecoded(m: Modem, source: seq<seq<bool>>, wide: bool, k: nat, rx: RxState, n: nat)
    requires WellFormed(m) && Supply(Wide(m), source) && SendsOnes(m, wide, |source|) && k < 4
    requires rx.taps == m.tx.taps && rx.sixteenWay == wide && Refers(rx.last, m.tx.quadrant, k)
    requires m.tx.taps.Valid() && m.tx.taps.tap2 < n && Agree(n, true, m.tx.scr, rx.scr)
    ensures var idxs := Turned(k, SendAll(m, source).1);
            Indices(idxs) && BaudBits(rx, idxs) == Ones(BitCount(wide, |source|))
  {
    hide SendAll, SendRun, MapRun, UnmapRun, ScrambleRun, DescrambleRun, Agree, Turned, Whole, BitCount, WellFormed;
    hide SendsOnes, Supply;
    OnesOnTheLine(m, source, wide);
    var ones := Ones(BitCount(wide, |source|));
    SendTakenApart(m.tx.taps, wide, SenderOf(m), ones);
    var line := ScrambleRun(m.tx.taps, m.tx.scr, ones).1;
    LineBitsRecovered(wide, k, m.tx.quadrant, rx.last, line);
    DescrambleUndoesScramble(m.tx.taps, n, m.tx.scr, rx.scr, ones);
  }

  /** A synchronised receiver that is fed nine symbols of the segment S1111 is in data, under any right-angle turn. */
  lemma NineSymbolsOfOnes(a: Modem, b: Modem, source: seq<seq<bool>>, k: nat, n: nat)
    requires WellFormed(a) && WellFormed(b) && Supply(Wide(a), source) && |source| == 9 && k < 4
    requires a.tx.stage.S1111? && a.tx.count + 9 <= 120
    requires b.rx.stage.WaitForScrambledOnesAt2400? && b.rx.sixteenWay && b.rx.repeats == 0
    requires b.rx.taps == a.tx.taps && Refers(b.rx.last, a.tx.quadrant, k)
    requires a.tx.taps.tap2 < n && Agree(n, true, a.tx.scr, b.rx.scr)
    ensures Indices(Turned(k, SendAll(a, source).1)) && Hear(b, Turned(k, SendAll(a, source).1)).rx.stage.RxNormal?
  {
    hide SendAll, Hear, Agree, Turned, BaudBits, NineInARow;
    Quadrants(a);
    Quadrants(b);
    OnesDecoded(a, source, true, k, b.rx, n);
    var idxs := Turned(k, SendAll(a, source).1);
    WaitEndsExactly(b, idxs);
    assert |idxs| == 9;
    assert Ones(0) + FourOnes(Ones(36), 9) == Ones(9) + [];
    NineOnes([]);
  }

  // ---- S1 at the far end ----

  /** Looking for S1 at 1200 bit/s, with some bauds of the search left. */
  predicate Searching(m: Modem, left: nat) {
    WellFormed(m) && m.rx.stage.ScrambledOnesAt1200? && m.rate == 1200 && m.rx.count + left < 162
  }

  /** A baud of the search that does not end an S1 segment, or ends one that the modem cannot take up. */
  lemma SearchBaud(m: Modem, nearest: nat, left: nat)
    requires Searching(m, left) && left > 0 && nearest < 16 && !(S1Ends(m.rx, nearest) && m.maxRate == 2400)
    ensures var m', raw := ProcessBaud(m, nearest), RawBits(m.rx, nearest);
            && Searching(m', left - 1) && m'.tx == m.tx && m'.maxRate == m.maxRate && m'.calling == m.calling
            && m'.rx == DecodeBaud(m.rx, nearest).0.(count := m.rx.count + 1, lastRaw := raw,
                          repeats := if raw == 3 - m.rx.lastRaw then m.rx.repeats + 1 else 0)
  {
    hide PhaseStep, DecodeSymbol, S1Ends, RawBits;
  }

  /** The baud that does: 2400 bit/s is negotiated, and an answerer replies with its own S1. */
  lemma S1Baud(m: Modem, nearest: nat, left: nat)
    requires Searching(m, left) && left > 0 && nearest < 16 && S1Ends(m.rx, nearest) && m.maxRate == 2400
    ensures var m' := ProcessBaud(m, nearest);
            && WellFormed(m') && m'.rate == 2400 && m'.maxRate == m.maxRate && m'.calling == m.calling
            && m'.tx == (if m.calling then m.tx else m.tx.(count := 0, stage := U0011))
            && m'.rx == DecodeBaud(m.rx, nearest).0.(count := m.rx.count + 1, lastRaw := m'.rx.lastRaw,
                                                     repeats := m'.rx.repeats)
  {
    hide PhaseStep, DecodeSymbol, S1Ends, RawBits;
  }

  lemma DibitsReadUnfold(last: nat, idxs: seq<nat>)
    requires last < 16 && Indices(idxs) && idxs != []
    ensures idxs[0] < 16 && DibitsRead(last, idxs)
            == [DibitOf(last, idxs[0])] + DibitsRead(idxs[0], idxs[1..])
  {
    hide PhaseStep;
  }

  /** An alternation is counted baud by baud, and does not end while it lasts. */
  lemma {:induction false} AlternationCounted(m: Modem, idxs: seq<nat>, first: nat)
    requires Searching(m, |idxs|) && Indices(idxs) && m.rx.last < 16 && (first == 0 || first == 3)
    requires Alternates(DibitsRead(m.rx.last, idxs), first)
    requires idxs != [] ==> m.rx.repeats < 15 || first == 3 - m.rx.lastRaw
    ensures var m' := Hear(m, idxs);
            && Searching(m', 0) && m'.tx == m.tx && m'.maxRate == m.maxRate && m'.calling == m.calling
            && m'.rx.count == m.rx.count + |idxs| && m'.rx.last == LastOf(m.rx.last, idxs)
            && (idxs != [] ==> m'.rx.repeats >= |idxs| - 1
                               && m'.rx.lastRaw == DibitsRead(m.rx.last, idxs)[|idxs| - 1])
            && (first == 3 - m.rx.lastRaw ==> m'.rx.repeats >= m.rx.repeats + |idxs|)
    decreases |idxs|
  {
    if idxs != [] {
      DibitsReadUnfold(m.rx.last, idxs);
      hide ProcessBaud, DecodeBaud, DibitsRead, PhaseStep;
      assert DibitsRead(m.rx.last, idxs)[0] == first;
      assert RawBits(m.rx, idxs[0]) == first;
      SearchBaud(m, idxs[0], |idxs|);
      var m' := ProcessBaud(m, idxs[0]);
      var rest := DibitsRead(idxs[0], idxs[1..]);
      assert Alternates(rest, 3 - first) by { AlternatesTail(first, rest); }
      AlternationCounted(m', idxs[1..], 3 - first);
    }
  }

  lemma AlternatesTail(first: nat, rest: seq<nat>)
    requires first <= 3 && Alternates([first] + rest, first)
    ensures Alternates(rest, 3 - first)
  {
    forall i | 0 <= i < |rest| ensures rest[i] == if i % 2 == 0 then 3 - first else first {
      assert ([first] + rest)[i + 1] == rest[i];
    }
  }

  /** S1, or any 16 symbols of it and more, and then a dibit that breaks the alternation: a receiver that can do
      2400 bit/s has negotiated it. */
  lemma S1Negotiates(m: Modem, idxs: seq<nat>, first: nat, next: nat)
    requires Searching(m, |idxs| + 1) && Indices(idxs) && m.rx.last < 16 && (first == 0 || first == 3)
    requires Alternates(DibitsRead(m.rx.last, idxs), first) && |idxs| >= 16 && m.rx.repeats < 15
    requires next < 16 && m.maxRate == 2400
    requires RawBits(Hear(m, idxs).rx, next) != 3 - DibitsRead(m.rx.last, idxs)[|idxs| - 1]
    ensures Hear(m, idxs).rate == 1200 && Hear(m, idxs).rx.repeats >= 15 && S1Ends(Hear(m, idxs).rx, next)
    ensures ProcessBaud(Hear(m, idxs), next).rate == 2400
  {
    hide Hear, ProcessBaud, DecodeBaud, DibitsRead, PhaseStep;
    AlternationCounted(m, idxs, first);
    assert Searching(Hear(m, idxs), 1);
    assert S1Ends(Hear(m, idxs).rx, next);
    S1Baud(Hear(m, idxs), next, 1);
  }

  /** The whole segment as one modem sends it and another hears it, under any right-angle turn. */
  lemma S1Heard(a: Modem, b: Modem, source: seq<seq<bool>>, k: nat, next: nat)
    requires WellFormed(a) && Supply(Wide(a), source) && |source| == 60 && a.tx.stage.U0011? && a.tx.count == 0
    requires Searching(b, 61) && b.maxRate == 2400 && b.rx.repeats < 15 && k < 4
    requires Refers(b.rx.last, a.tx.quadrant, k) && next < 16
    ensures Indices(Turned(k, SendAll(a, source).1))
    ensures var b' := Hear(b, Turned(k, SendAll(a, source).1));
            && b'.rx.last < 16 && b'.rx.lastRaw == 3 && b'.rx.repeats >= 59
            && (RawBits(b'.rx, next) != 0 ==> S1Ends(b'.rx, next) && ProcessBaud(b', next).rate == 2400)
  {
    hide SendAll, Hear, ProcessBaud, DecodeBaud, DibitsRead, PhaseStep, WellFormed, Turned;
    S1OnTheLine(a, source, k, b.rx.last, 0);
    var idxs := Turned(k, SendAll(a, source).1);
    AlternationCounted(b, idxs, 0);
    Quadrants(Hear(b, idxs));
    if RawBits(Hear(b, idxs).rx, next) != 0 {
      S1Negotiates(b, idxs, 0, next);
    }
  }
}
