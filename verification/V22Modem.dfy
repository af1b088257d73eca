/** The V.22bis modem object: transmitter and receiver fields updated in place, symbol by symbol.
    Every method is shown to do what the corresponding function of V22Handshake says. */
module V22Modem {
  import opened V22Scrambler
  import opened V22Constellation
  import opened V22DataPath
  import opened V22Handshake

  lemma OneBit(t: Taps, st: Scrambler, b: bool)
    requires t.Valid()
    ensures ScrambleRun(t, st, [b]) == (ScrambleBit(t, st, b).0, [ScrambleBit(t, st, b).1])
    ensures DescrambleRun(t, st, [b]) == (DescrambleBit(t, st, b).0, [DescrambleBit(t, st, b).1])
  {
    hide ScrambleBit, DescrambleBit;
    var s1, d1 := ScrambleBit(t, st, b).0, DescrambleBit(t, st, b).0;
    assert [b][1..] == [];
    assert ScrambleRun(t, s1, []) == (s1, []) && DescrambleRun(t, d1, []) == (d1, []);
    assert [ScrambleBit(t, st, b).1] + [] == [ScrambleBit(t, st, b).1];
    assert [DescrambleBit(t, st, b).1] + [] == [DescrambleBit(t, st, b).1];
  }

  lemma TwoBits(t: Taps, st: Scrambler, a: bool, b: bool)
    requires t.Valid()
    ensures var (s1, x) := ScrambleBit(t, st, a);
            var (s2, y) := ScrambleBit(t, s1, b);
            ScrambleRun(t, st, [a, b]) == (s2, [x, y])
    ensures var (s1, x) := DescrambleBit(t, st, a);
            var (s2, y) := DescrambleBit(t, s1, b);
            DescrambleRun(t, st, [a, b]) == (s2, [x, y])
  {
    hide ScrambleBit, DescrambleBit, ScrambleRun, DescrambleRun;
    OneBit(t, st, a);
    OneBit(t, ScrambleBit(t, st, a).0, b);
    OneBit(t, DescrambleBit(t, st, a).0, b);
    ScrambleInPieces(t, st, [a], [b]);
    DescrambleInPieces(t, st, [a], [b]);
    assert [a] + [b] == [a, b];
    var s1, d1 := ScrambleBit(t, st, a), DescrambleBit(t, st, a);
    assert [s1.1] + [ScrambleBit(t, s1.0, b).1] == [s1.1, ScrambleBit(t, s1.0, b).1];
    assert [d1.1] + [DescrambleBit(t, d1.0, b).1] == [d1.1, DescrambleBit(t, d1.0, b).1];
  }

  class V22bis {
    var maxRate: nat
    var calling: bool
    var rate: nat

    // The two sections of the modem are structures of their own, as in the C declaration.
    var tx: TxState
    var rx: RxState

    function State(): (m: Modem)
      reads this
    {
      Modem(maxRate, calling, rate, tx, rx)
    }

    constructor (maxBitRate: nat, callingParty: bool, compat: bool)
      ensures State() == Init(maxBitRate, callingParty, compat)
    {
      maxRate, calling, rate := maxBitRate, callingParty, 0;
      var own, far;
      if compat {
        own, far := CALLING_TAPS, CALLING_TAPS;
      } else if callingParty {
        own, far := CALLING_TAPS, ANSWERING_TAPS;
      } else {
        own, far := ANSWERING_TAPS, CALLING_TAPS;
      }
      tx := TxState(own, Cleared(), InitialSilence, 0, 0);
      rx := ClearedRx(far);
    }

    // ---- Transmitter ----

    method Scramble(source: bool) returns (out: bool)
      requires tx.taps.Valid()
      modifies this`tx
      ensures var r := ScrambleBit(old(tx).taps, old(tx).scr, source);
              tx == old(tx).(scr := r.0) && out == r.1
    {
      var bit := source;
      if tx.scr.ones >= 64 {
        bit := !bit;
        tx := tx.(scr := tx.scr.(ones := 0));
      }
      out := Xor(bit, Xor(tx.scr.reg[tx.taps.tap1], tx.scr.reg[tx.taps.tap2]));
      tx := tx.(scr := tx.scr.(reg := [out] + tx.scr.reg[..31]));
      tx := tx.(scr := tx.scr.(ones := if out then tx.scr.ones + 1 else 0));
    }

    /** Scramble two bits, the first one first, and turn the quadrant by their dibit. */
    method TurnBy(first: bool, second: bool)
      requires tx.taps.Valid() && tx.quadrant < 4
      modifies this`tx
      ensures var (scr, line) := ScrambleRun(old(tx).taps, old(tx).scr, [first, second]);
              tx == old(tx).(scr := scr, quadrant := (old(tx).quadrant + PhaseStep(Dibit(line[0], line[1]))) % 4)
    {
      hide ScrambleBit, ScrambleRun, PhaseStep;
      TwoBits(tx.taps, tx.scr, first, second);
      var high := Scramble(first);
      var low := Scramble(second);
      tx := tx.(quadrant := (tx.quadrant + PhaseStep(Dibit(high, low))) % 4);
    }

    /** Scramble two more bits that pick the point within the quadrant. */
    method PickInner(first: bool, second: bool) returns (inner: nat)
      requires tx.taps.Valid()
      modifies this`tx
      ensures var (scr, line) := ScrambleRun(old(tx).taps, old(tx).scr, [first, second]);
              tx == old(tx).(scr := scr) && inner == Dibit(line[0], line[1])
    {
      hide ScrambleBit, ScrambleRun;
      TwoBits(tx.taps, tx.scr, first, second);
      var high := Scramble(first);
      var low := Scramble(second);
      inner := Dibit(high, low);
    }

    /** The data path of one symbol: quadrant, then the inner bits at 2400 bit/s. */
    method EmitSymbol(wide: bool, bits: seq<bool>) returns (idx: nat)
      requires tx.taps.Valid() && tx.quadrant < 4 && |bits| == BitsPerSymbol(wide)
      modifies this`tx
      ensures (tx, idx) == Emit(old(tx), wide, bits)
    {
      hide ScrambleRun, PhaseStep, Dibit, ScrambleBit, IsCandidate;
      ghost var st := tx.scr;
      TurnBy(bits[0], bits[1]);
      var inner := 1;
      if wide {
        inner := PickInner(bits[2], bits[3]);
        ScrambleInPieces(tx.taps, st, [bits[0], bits[1]], [bits[2], bits[3]]);
        assert [bits[0], bits[1]] + [bits[2], bits[3]] == bits;
      } else {
        assert [bits[0], bits[1]] == bits;
      }
      idx := tx.quadrant * 4 + inner;
    }

    method Training() returns (out: Output)
      requires WellFormed(State()) && !tx.stage.TxNormal?
      modifies this`tx
      ensures (State(), out) == TrainingSymbol(old(State()))
    {
      hide PhaseStep, Emit;
      match tx.stage {
        case InitialSilence =>
          tx := tx.(quadrant := 0);
          if !calling {
            tx := tx.(count := tx.count + 1);
            if tx.count >= Symbols(75) {
              tx := tx.(count := 0);
              tx := tx.(stage := U11);
            }
          }
          out := Silence;
        case U11 =>
          tx := tx.(quadrant := (tx.quadrant + PhaseStep(3)) % 4);
          out := Sent(4 * tx.quadrant + 1);
        case U0011 =>
          tx := tx.(quadrant := (tx.quadrant + PhaseStep(3 * (tx.count % 2))) % 4);
          tx := tx.(count := tx.count + 1);
          if tx.count >= Symbols(100) {
            if calling {
              tx := tx.(count := 0);
              tx := tx.(stage := S11);
            } else {
              tx := tx.(count := Symbols(756 - (600 - 100)));
              tx := tx.(stage := TimedS11);
            }
          }
          out := Sent(4 * tx.quadrant + 1);
        case TimedS11 =>
          tx := tx.(count := tx.count + 1);
          if tx.count >= Symbols(756) {
            tx := tx.(count := 0);
            tx := tx.(stage := if rate == 2400 then S1111 else TxNormal);
          }
          var idx := EmitSymbol(false, [true, true]);
          out := Sent(idx);
        case S11 =>
          var idx := EmitSymbol(false, [true, true]);
          out := Sent(idx);
        case S1111 =>
          tx := tx.(count := tx.count + 1);
          if tx.count >= Symbols(200) {
            tx := tx.(count := 0);
            tx := tx.(stage := TxNormal);
          }
          var idx := EmitSymbol(true, [true, true, true, true]);
          out := Sent(idx);
        case TxNormal => out := Silence;
        case TxParked => out := Silence;
      }
    }

    /** get_symbol; the bits are what the bit source returns, and they are pulled only after training. */
    method GetSymbol(bits: seq<bool>) returns (out: Output)
      requires WellFormed(State()) && |bits| == BitsPerSymbol(rate != 1200)
      modifies this`tx
      ensures (State(), out) == TxSymbol(old(State()), bits)
    {
      hide Emit, TrainingSymbol;
      if tx.stage.TxNormal? {
        var idx := EmitSymbol(rate != 1200, bits);
        out := Sent(idx);
      } else {
        out := Training();
      }
    }

    // ---- Receiver ----

    method Descramble(bit: bool) returns (out: bool)
      requires rx.taps.Valid()
      modifies this`rx
      ensures var r := DescrambleBit(old(rx).taps, old(rx).scr, bit);
              rx == old(rx).(scr := r.0) && out == r.1
    {
      out := Xor(bit, Xor(rx.scr.reg[rx.taps.tap1], rx.scr.reg[rx.taps.tap2]));
      rx := rx.(scr := rx.scr.(reg := [bit] + rx.scr.reg[..31]));
      if rx.scr.ones >= 64 {
        out := !out;
        rx := rx.(scr := rx.scr.(ones := 0));
      }
      rx := rx.(scr := rx.scr.(ones := if bit then rx.scr.ones + 1 else 0));
    }

    method DescrambleDibit(first: bool, second: bool) returns (bits: seq<bool>)
      requires rx.taps.Valid()
      modifies this`rx
      ensures var r := DescrambleRun(old(rx).taps, old(rx).scr, [first, second]);
              rx == old(rx).(scr := r.0) && bits == r.1
    {
      hide DescrambleBit, DescrambleRun;
      TwoBits(rx.taps, rx.scr, first, second);
      var b1 := Descramble(first);
      var b0 := Descramble(second);
      bits := [b1, b0];
    }

    /** decode_baud: differential decode and descramble one symbol. */
    method DecodeInPlace(nearest: nat) returns (bits: seq<bool>)
      requires rx.taps.Valid() && rx.last < 16 && nearest < 16
      modifies this`rx
      ensures (rx, bits) == DecodeBaud(old(rx), nearest)
    {
      assert UnmapSymbol(rx.sixteenWay, rx.last, nearest)
             == var step := PhaseStep((nearest / 4 - rx.last / 4) % 4);
                [step / 2 == 1, step % 2 == 1]
                + (if rx.sixteenWay then [nearest / 2 % 2 == 1, nearest % 2 == 1] else []);
      hide PhaseStep, DescrambleRun, UnmapSymbol;
      ghost var st := rx.scr;
      var raw := PhaseStep((nearest / 4 - rx.last / 4) % 4);
      rx := rx.(last := nearest);
      bits := DescrambleDibit(raw / 2 == 1, raw % 2 == 1);
      if rx.sixteenWay {
        DescrambleInPieces(rx.taps, st, [raw / 2 == 1, raw % 2 == 1], [nearest / 2 % 2 == 1, nearest % 2 == 1]);
        var inner := DescrambleDibit(nearest / 2 % 2 == 1, nearest % 2 == 1);
        bits := bits + inner;
      } else {
        assert [raw / 2 == 1, raw % 2 == 1] + [] == [raw / 2 == 1, raw % 2 == 1];
      }
    }

    /** process_baud, given the slicer's decision. The delivered bits are what put_bit receives. */
    method Baud(nearest: nat) returns (delivered: seq<bool>)
      requires WellFormed(State()) && nearest < 16
      modifies this
      ensures State() == ProcessBaud(old(State()), nearest)
      ensures delivered == V22Handshake.Delivered(old(State()), nearest)
    {
      hide PhaseStep, DecodeBaud, AfterAcquisition, AfterUnscrambledOnes, AfterUnscrambledOnesSustaining,
           AfterScrambledOnes, AfterSustaining, AfterWait;
      var rawBits := PhaseStep((nearest / 4 - rx.last / 4) % 4);
      delivered := [];
      match rx.stage {
        case SymbolAcquisition => Acquire(nearest);
        case UnscrambledOnes => WatchUnscrambledOnes(nearest, rawBits);
        case UnscrambledOnesSustaining => SustainUnscrambledOnes(nearest, rawBits);
        case ScrambledOnesAt1200 => SearchForS1(nearest, rawBits);
        case ScrambledOnesAt1200Sustaining => SustainScrambledOnes(nearest);
        case WaitForScrambledOnesAt2400 => WaitFor2400(nearest);
        case RxNormal => delivered := DecodeInPlace(nearest);
        case RxParked =>
      }
      rx := rx.(lastRaw := rawBits);
    }

    // One method for each case of the training switch.

    method Acquire(nearest: nat)
      modifies this
      ensures State() == AfterAcquisition(old(State()), nearest)
    {
      rx := rx.(count := rx.count + 1);
      if rx.count >= ACQUIRE_SYMBOLS {
        rate := 1200;
        rx := rx.(repeats := 0);
        rx := rx.(last := nearest);
        rx := rx.(count := 0);
        rx := rx.(stage := if calling then UnscrambledOnes else ScrambledOnesAt1200);
      }
    }

    method WatchUnscrambledOnes(nearest: nat, rawBits: nat)
      modifies this
      ensures State() == AfterUnscrambledOnes(old(State()), rawBits, nearest)
    {
      rx := rx.(last := nearest);
      rx := rx.(repeats := if rawBits == rx.lastRaw then rx.repeats + 1 else 0);
      rx := rx.(count := rx.count + 1);
      if rx.count == Symbols(155 + 456) {
        if rawBits == rx.lastRaw && (rawBits == 3 || rawBits == 0) && rx.repeats >= Symbols(456) {
          tx := tx.(count := 0);
          tx := tx.(stage := if maxRate == 2400 then U0011 else S11);
        }
        rx := rx.(repeats := 0);
        rx := rx.(count := 0);
        rx := rx.(stage := UnscrambledOnesSustaining);
      }
    }

    method SustainUnscrambledOnes(nearest: nat, rawBits: nat)
      modifies this
      ensures State() == AfterUnscrambledOnesSustaining(old(State()), rawBits, nearest)
    {
      rx := rx.(last := nearest);
      if rawBits != rx.lastRaw {
        tx := tx.(count := 0, stage := TimedS11);
        rx := rx.(count := 0, repeats := 0);
        rx := rx.(stage := ScrambledOnesAt1200);
      }
    }

    method SustainScrambledOnes(nearest: nat)
      requires WellFormed(State()) && nearest < 16
      modifies this
      ensures State() == AfterSustaining(old(State()), nearest)
    {
      hide DecodeBaud;
      var _ := DecodeInPlace(nearest);
      rx := rx.(count := rx.count + 1);
      if rx.count > Symbols(270 + 765) { rx := rx.(stage := RxNormal); }
    }

    method WaitFor2400(nearest: nat)
      requires WellFormed(State()) && nearest < 16
      modifies this
      ensures State() == AfterWait(old(State()), nearest)
    {
      hide DecodeBaud;
      var bits := DecodeInPlace(nearest);
      if bits == [true, true, true, true] {
        rx := rx.(repeats := rx.repeats + 1);
        if rx.repeats >= 9 { rx := rx.(stage := RxNormal); }
      } else {
        rx := rx.(repeats := 0);
      }
    }

    method SearchForS1(nearest: nat, rawBits: nat)
      requires rx.taps.Valid() && rx.last < 16 && nearest < 16 && rx.stage.ScrambledOnesAt1200?
      requires rawBits == RawBits(rx, nearest)
      modifies this
      ensures State() == AfterScrambledOnes(old(State()), rawBits, nearest)
    {
      hide RawBits, DecodeBaud, Symbols;
      var _ := DecodeInPlace(nearest);
      rx := rx.(count := rx.count + 1);
      if rate == 1200 {
        if rawBits == 3 - rx.lastRaw {
          rx := rx.(repeats := rx.repeats + 1);
        } else {
          if rx.repeats >= 15 && (rx.lastRaw == 3 || rx.lastRaw == 0) {
            if maxRate == 2400 {
              if !calling { tx := tx.(count := 0, stage := U0011); }
              rate := 2400;
            }
          }
          rx := rx.(repeats := 0);
        }
        if rx.count >= Symbols(270) {
          tx := tx.(count := 0, stage := TimedS11);
          rx := rx.(stage := if calling then RxNormal else ScrambledOnesAt1200Sustaining);
        }
      } else {
        var due := if calling then Symbols(100 + 450) else Symbols(450);
        if rx.count >= due {
          rx := rx.(sixteenWay := true);
          rx := rx.(repeats := 0);
          rx := rx.(stage := WaitForScrambledOnesAt2400);
        }
      }
    }

    /** acquire_reset together with the carrier flag. */
    method AcquireReset()
      modifies this
      ensures State() == CarrierAppears(old(State()))
    {
      rx := rx.(carrier := true);
      rx := rx.(stage := SymbolAcquisition);
      rx := rx.(count := 0, last := 0, repeats := 0, lastRaw := 0);
      rx := rx.(sixteenWay := false);
      rate := 1200;
      rx := rx.(scr := Cleared());
    }
  }

  /** The pulse shaper's history, written twice so that the last nine symbols are always one contiguous
      stretch of the array, oldest first. */
  class ShaperRing {
    const rrc: array<Complex>
    var step: nat

    ghost predicate Valid()
      reads this, rrc
    {
      rrc.Length == 18 && step < 9 && forall i | 0 <= i < 9 :: rrc[i] == rrc[i + 9]
    }

    ghost function Window(): (w: seq<Complex>)
      requires Valid()
      reads this, rrc
    {
      rrc[step..step + 9]
    }

    constructor ()
      ensures Valid() && fresh(rrc)
      ensures Window() == seq(9, _ => Complex(0.0, 0.0))
    {
      rrc := new Complex[18](_ => Complex(0.0, 0.0));
      step := 0;
    }

    method Push(sym: Complex)
      requires Valid()
      modifies this`step, rrc
      ensures Valid() && Window() == old(Window())[1..] + [sym]
    {
      rrc[step] := sym;
      rrc[step + 9] := sym;
      step := step + 1;
      if step >= 9 { step := 0; }
    }
  }
}
