/** Two modems in the data phase: what their symbol and baud routines do, called in any order, is the data path of the
    end-to-end theorems. */
module V22DataPhase {
  import opened BitPipe
  import opened ByteBits
  import opened Sequences
  import V22Call
  import opened V22Constellation
  import opened V22DataPath
  import opened V22EndToEnd
  import opened V22Handshake
  import opened V22Scrambler
  import opened V22Training

  /** Training is over on both sides of the modem, and the slicer is set for the negotiated rate. */
  predicate InData(m: Modem)
    ensures InData(m) ==> WellFormed(m)
  {
    WellFormed(m) && m.tx.stage.TxNormal? && m.rx.stage.RxNormal? && m.rx.sixteenWay == (m.rate != 1200)
  }

  function ReceiverOf(m: Modem): (rx: Receiver) {
    Receiver(m.rx.scr, m.rx.last)
  }

  /** One turn of the modem: a symbol to be sent, or a point off the line to be decided. */
  datatype Turn = Send(bits: seq<bool>) | Take(z: Complex)

  predicate Turns(wide: bool, turns: seq<Turn>) {
    forall i | 0 <= i < |turns| :: turns[i].Send? ==> |turns[i].bits| == BitsPerSymbol(wide)
  }

  function TurnBits(turn: Turn): (bits: seq<bool>) {
    if turn.Send? then turn.bits else []
  }

  function TurnPoints(turn: Turn): (zs: seq<Complex>) {
    if turn.Take? then [turn.z] else []
  }

  function SourceBits(turns: seq<Turn>): (bits: seq<bool>) {
    if turns == [] then [] else TurnBits(turns[0]) + SourceBits(turns[1..])
  }

  function PointsTaken(turns: seq<Turn>): (zs: seq<Complex>) {
    if turns == [] then [] else TurnPoints(turns[0]) + PointsTaken(turns[1..])
  }

  /** What the modem puts on the line, and what it hands to its data socket. */
  datatype Traffic = Traffic(m: Modem, sent: seq<nat>, got: seq<bool>)

  function TurnOnce(m: Modem, turn: Turn): (r: Traffic)
    requires WellFormed(m) && (turn.Send? ==> |turn.bits| == BitsPerSymbol(Wide(m)))
    ensures WellFormed(r.m)
  {
    hide TxSymbol, ProcessBaud, SliceOf, WellFormed;
    match turn
    case Send(bits) =>
      var (m', out) := TxSymbol(m, bits);
      Traffic(m', if out.Sent? then [out.idx] else [], [])
    case Take(z) =>
      BaudFits(m);
      var nearest := SliceOf(m.rx.sixteenWay, z);
      Traffic(ProcessBaud(m, nearest), [], Delivered(m, nearest))
  }

  lemma BaudFits(m: Modem)
    requires WellFormed(m)
    ensures m.tx.taps.Valid() && m.rx.taps.Valid() && m.tx.quadrant < 4 && m.rx.last < 16
  {
  }

  /** One turn in the data phase stays there, and sends or receives one symbol without touching the other side. */
  lemma OneTurn(m: Modem, turn: Turn)
    requires InData(m) && (turn.Send? ==> |turn.bits| == BitsPerSymbol(Wide(m)))
    ensures var r := TurnOnce(m, turn);
            && InData(r.m) && r.m.rate == m.rate && r.m.tx.taps == m.tx.taps && r.m.rx.taps == m.rx.taps
            && Indices(r.sent)
            && match turn
               case Send(bits) =>
                 && ReceiverOf(r.m) == ReceiverOf(m) && r.got == []
                 && var s := SendSymbol(m.tx.taps, Wide(m), SenderOf(m), bits);
                    SenderOf(r.m) == s.0 && r.sent == [s.1]
               case Take(z) =>
                 && SenderOf(r.m) == SenderOf(m) && r.sent == []
                 && var d := DecodeSymbol(m.rx.taps, Wide(m), ReceiverOf(m), SliceOf(Wide(m), z));
                    ReceiverOf(r.m) == d.0 && r.got == d.1
  {
    hide SendSymbol, DecodeSymbol, PhaseStep, SliceOf, TrainingSymbol, S1Ends;
  }

  function Run(m: Modem, turns: seq<Turn>): (r: Traffic)
    requires InData(m) && Turns(Wide(m), turns)
    ensures WellFormed(r.m) && Indices(r.sent)
    decreases |turns|
  {
    hide TurnOnce, InData;
    if turns == [] then Traffic(m, [], [])
    else
      OneTurn(m, turns[0]);
      var first := TurnOnce(m, turns[0]);
      var rest := Run(first.m, turns[1..]);
      Traffic(rest.m, first.sent + rest.sent, first.got + rest.got)
  }

  lemma WholeTurns(wide: bool, turns: seq<Turn>)
    requires Turns(wide, turns)
    ensures Whole(wide, |SourceBits(turns)|)
  {
    if turns != [] {
      WholeTurns(wide, turns[1..]);
    }
  }

  lemma OneMoreWhole(wide: bool, bits: nat)
    requires Whole(wide, bits)
    ensures Whole(wide, BitsPerSymbol(wide) + bits) && BitsPerSymbol(wide) > 0
  {
    FourMore(bits);
    TwoMore(bits);
  }

  lemma FourMore(bits: nat)
    ensures (4 + bits) % 4 == bits % 4
  {
  }

  lemma TwoMore(bits: nat)
    ensures (2 + bits) % 2 == bits % 2
  {
  }

  lemma SymbolFirst(t: Taps, wide: bool, tx: Sender, bits: seq<bool>, more: seq<bool>)
    requires t.Valid() && tx.quadrant < 4 && |bits| == BitsPerSymbol(wide) && Whole(wide, |more|)
    ensures Whole(wide, |bits + more|)
    ensures var first := SendSymbol(t, wide, tx, bits);
            first.0.quadrant < 4
            && var rest := SendRun(t, wide, first.0, more);
               SendRun(t, wide, tx, bits + more) == (rest.0, [first.1] + rest.1)
  {
    hide SendSymbol, SendRun, BitCount, IsCandidate, Whole, BitsPerSymbol, Transmitted;
    OneMoreWhole(wide, |more|);
    assert (bits + more)[..|bits|] == bits && (bits + more)[|bits|..] == more;
    SendRunUnfolds(t, wide, tx, bits + more);
  }

  lemma PointFirst(t: Taps, wide: bool, rx: Receiver, z: Complex, more: seq<Complex>)
    requires t.Valid() && rx.last < 16
    ensures var first := DecodeSymbol(t, wide, rx, SliceOf(wide, z));
            var rest := ReceiveRun(t, wide, first.0, more);
            ReceiveRun(t, wide, rx, [z] + more) == (rest.0, first.1 + rest.1)
  {
    hide DecodeSymbol, SliceOf, BitCount;
    assert ([z] + more)[1..] == more;
  }

  /** A turn is the first step of the run of what is sent ... */
  lemma SentFirst(m: Modem, turn: Turn, more: seq<bool>)
    requires InData(m) && (turn.Send? ==> |turn.bits| == BitsPerSymbol(Wide(m))) && Whole(Wide(m), |more|)
    ensures var r, wide := TurnOnce(m, turn), Wide(m);
            && m.tx.taps.Valid() && m.tx.quadrant < 4 && r.m.tx.quadrant < 4 && Whole(wide, |TurnBits(turn) + more|)
            && var s := SendRun(m.tx.taps, wide, SenderOf(r.m), more);
               SendRun(m.tx.taps, wide, SenderOf(m), TurnBits(turn) + more) == (s.0, r.sent + s.1)
  {
    hide SendRun, SendSymbol, DecodeSymbol, SliceOf, TurnOnce, InData, Whole, BitCount, Transmitted, WellFormed;
    OneTurn(m, turn);
    BaudFits(m);
    BaudFits(TurnOnce(m, turn).m);
    if turn.Send? {
      SymbolFirst(m.tx.taps, Wide(m), SenderOf(m), turn.bits, more);
    } else {
      var sent := SendRun(m.tx.taps, Wide(m), SenderOf(m), more).1;
      assert [] + more == more && [] + sent == sent;
    }
  }

  /** ... and of what is received. */
  lemma ReceivedFirst(m: Modem, turn: Turn, more: seq<Complex>)
    requires InData(m) && (turn.Send? ==> |turn.bits| == BitsPerSymbol(Wide(m)))
    ensures var r, wide := TurnOnce(m, turn), Wide(m);
            && m.rx.taps.Valid() && m.rx.last < 16 && r.m.rx.last < 16
            && var d := ReceiveRun(m.rx.taps, wide, ReceiverOf(r.m), more);
               ReceiveRun(m.rx.taps, wide, ReceiverOf(m), TurnPoints(turn) + more) == (d.0, r.got + d.1)
  {
    hide ReceiveRun, SendSymbol, DecodeSymbol, SliceOf, TurnOnce, InData, BitCount, WellFormed;
    OneTurn(m, turn);
    BaudFits(m);
    BaudFits(TurnOnce(m, turn).m);
    if turn.Take? {
      PointFirst(m.rx.taps, Wide(m), ReceiverOf(m), turn.z, more);
    } else {
      var got := ReceiveRun(m.rx.taps, Wide(m), ReceiverOf(m), more).1;
      assert [] + more == more && [] + got == got;
    }
  }

  /** Sending and receiving in any interleaving are two runs that know nothing of each other. */
  lemma {:induction false} RunIsDataPath(m: Modem, turns: seq<Turn>)
    requires InData(m) && Turns(Wide(m), turns)
    ensures m.tx.quadrant < 4 && m.rx.last < 16 && m.tx.taps.Valid() && m.rx.taps.Valid()
    ensures Whole(Wide(m), |SourceBits(turns)|)
    ensures var r := Run(m, turns);
            var s := SendRun(m.tx.taps, Wide(m), SenderOf(m), SourceBits(turns));
            var d := ReceiveRun(m.rx.taps, Wide(m), ReceiverOf(m), PointsTaken(turns));
            && InData(r.m) && r.m.rate == m.rate
            && (SenderOf(r.m), r.sent) == s && (ReceiverOf(r.m), r.got) == d
    decreases |turns|
  {
    WholeTurns(Wide(m), turns);
    BaudFits(m);
    if turns == [] {
      NothingDone(m);
    } else {
      hide SendRun, ReceiveRun, TurnOnce, InData, Whole, SenderOf, ReceiverOf, TurnBits, TurnPoints, BitCount;
      hide Transmitted, SendSymbol, DecodeSymbol, SliceOf;
      OneTurn(m, turns[0]);
      WholeTurns(Wide(m), turns[1..]);
      SentFirst(m, turns[0], SourceBits(turns[1..]));
      ReceivedFirst(m, turns[0], PointsTaken(turns[1..]));
      RunIsDataPath(TurnOnce(m, turns[0]).m, turns[1..]);
    }
  }

  lemma NothingDone(m: Modem)
    requires InData(m)
    ensures SendRun(m.tx.taps, Wide(m), SenderOf(m), []) == (SenderOf(m), [])
    ensures ReceiveRun(m.rx.taps, Wide(m), ReceiverOf(m), []) == (ReceiverOf(m), [])
  {
  }

  /** From one modem to another, each sending and receiving in any order of its own: the bytes the one's source supplies
      behind 69 or more idle ones arrive in place, at the rate both are in, whatever state the receiver was in. */
  lemma ModemToModem(a: Modem, b: Modem, turnsA: seq<Turn>, turnsB: seq<Turn>, k: nat, noise: seq<Complex>,
                     held: seq<bool>, idle: nat, bytes: seq<Byte>, filled: nat)
    requires InData(a) && InData(b) && a.rate == b.rate && a.tx.taps == b.rx.taps && Counts(a.tx.scr) && k < 4
    requires Turns(Wide(a), turnsA) && Turns(Wide(b), turnsB)
    requires SourceBits(turnsA) == Ones(idle) + BitsOf(bytes) && idle >= 69 && |held| + idle == 8 * filled
    requires |noise| == |Run(a, turnsA).sent| && AllTolerable(Wide(a), noise)
    requires PointsTaken(turnsB) == Line(k, Run(a, turnsA).sent, noise)
    ensures var got := Assembled(held + Run(b, turnsB).got);
            |got| == filled + |bytes| && got[filled..] == bytes
  {
    hide SendRun, ReceiveRun, Run, InData, Line, Assembled, Counts, AllTolerable, BitsOf, BitCount, Whole, Indices;
    hide SourceBits, PointsTaken, Turns;
    RunIsDataPath(a, turnsA);
    RunIsDataPath(b, turnsB);
    IdleThenBytes(a.tx.taps, Wide(a), k, SenderOf(a), ReceiverOf(b), held, idle, bytes, filled, noise);
  }

  /** The two modems once the call is set up. */
  function AfterCall(s: V22Call.Setting, compat: bool, beats: seq<V22Call.Beat>): (p: V22Call.Pair)
    requires s.Valid() && (forall i | 0 <= i < |beats| :: V22Call.Good(beats[i])) && |beats| >= 1278
    ensures InData(p.a) && InData(p.b) && p.a.rate == p.b.rate
    ensures p.a.tx.taps == p.b.rx.taps && p.b.tx.taps == p.a.rx.taps && Counts(p.a.tx.scr) && Counts(p.b.tx.scr)
  {
    hide Counts, V22Call.Rounds, WellFormed;
    V22Call.CallIsSetUp(s, compat, beats);
    V22Call.Rounds(V22Call.PowerUp(s.maxA, s.maxB, compat), s.ka, s.kb, beats)
  }

  /** From power-up to the far end's data socket. Whatever happened on the way, the caller's bytes behind 69 or more
      idle ones arrive in place at the answerer once the call is set up, and just so the answerer's at the caller. */
  lemma CallCarriesBytes(s: V22Call.Setting, compat: bool, beats: seq<V22Call.Beat>, fromCaller: bool,
                         turns: seq<Turn>, farTurns: seq<Turn>, k: nat, noise: seq<Complex>,
                         held: seq<bool>, idle: nat, bytes: seq<Byte>, filled: nat)
    requires s.Valid() && (forall i | 0 <= i < |beats| :: V22Call.Good(beats[i])) && |beats| >= 1278 && k < 4
    requires var p := AfterCall(s, compat, beats);
             var near, far := if fromCaller then p.a else p.b, if fromCaller then p.b else p.a;
             && Turns(Wide(near), turns) && Turns(Wide(far), farTurns)
             && |noise| == |Run(near, turns).sent| && AllTolerable(Wide(near), noise)
             && PointsTaken(farTurns) == Line(k, Run(near, turns).sent, noise)
    requires SourceBits(turns) == Ones(idle) + BitsOf(bytes) && idle >= 69 && |held| + idle == 8 * filled
    ensures var p := AfterCall(s, compat, beats);
            var far := if fromCaller then p.b else p.a;
            var got := Assembled(held + Run(far, farTurns).got);
            |got| == filled + |bytes| && got[filled..] == bytes
  {
    hide AfterCall, Run, InData, Line, Assembled, AllTolerable, BitsOf, SourceBits, PointsTaken, Turns, Counts;
    var p := AfterCall(s, compat, beats);
    if fromCaller {
      ModemToModem(p.a, p.b, turns, farTurns, k, noise, held, idle, bytes, filled);
    } else {
      ModemToModem(p.b, p.a, turns, farTurns, k, noise, held, idle, bytes, filled);
    }
  }
}
