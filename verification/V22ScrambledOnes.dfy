/** Scrambled ones on the line of a V.22bis modem: how they begin, and why they are never taken for S1. */
module V22ScrambledOnes {
  import opened ByteBits
  import opened V22DataPath
  import opened V22Scrambler
  import opened V22Training

  // ---- One symbol of them ----

  /** Both bits of a dibit of scrambled ones. */
  function TwoOnes(t: Taps, st: Scrambler): (r: (Scrambler, bool, bool))
    requires t.Valid()
  {
    var (st1, first) := ScrambleBit(t, st, true);
    var (st2, second) := ScrambleBit(t, st1, true);
    (st2, first, second)
  }

  lemma SymbolOfTwoOnes(t: Taps, tx: Sender)
    requires t.Valid() && tx.quadrant < 4
    ensures var (st, first, second) := TwoOnes(t, tx.scr);
            var q := NextQuadrant(tx.quadrant, Dibit(first, second));
            SendSymbol(t, false, tx, Ones(2)) == (Sender(st, q), 4 * q + 1)
  {
    hide PhaseStep, Dibit, ScrambleBit, ScrambleRun, MapSymbol, NextQuadrant, TwoOnes, Ones;
    var r := TwoOnes(t, tx.scr);
    RunOfTwo(t, tx.scr);
    PointOfDibit(tx.quadrant, r.1, r.2);
  }

  lemma PointOfDibit(quadrant: nat, first: bool, second: bool)
    requires quadrant < 4
    ensures var idx := MapSymbol(false, quadrant, [first, second]);
            var q := NextQuadrant(quadrant, Dibit(first, second));
            idx == 4 * q + 1 && idx / 4 == q
  {
    hide PhaseStep, Dibit;
  }

  lemma RunOfTwo(t: Taps, st: Scrambler)
    requires t.Valid()
    ensures var r := TwoOnes(t, st); ScrambleRun(t, st, Ones(2)) == (r.0, [r.1, r.2])
  {
    hide ScrambleBit;
    var (st1, first) := ScrambleBit(t, st, true);
    var (st2, second) := ScrambleBit(t, st1, true);
    var none: seq<bool> := [];
    assert [true][1..] == none && ScrambleRun(t, st2, none) == (st2, none) && [second] + none == [second];
    assert ScrambleRun(t, st1, [true]) == (st2, [second]);
    assert Ones(2)[0] && Ones(2)[1..] == [true];
    assert [first] + [second] == [first, second];
  }

  /** The i-th newest dibit in the register. */
  function DibitInRegister(reg: Register, i: nat): (dibit: nat)
    requires i < 16
    ensures dibit < 4
  {
    Dibit(reg[2 * i + 1], reg[2 * i])
  }

  lemma DibitsShift(t: Taps, st: Scrambler, i: nat)
    requires t.Valid() && i < 15
    ensures var (st', first, second) := TwoOnes(t, st);
            && DibitInRegister(st'.reg, 0) == Dibit(first, second)
            && DibitInRegister(st'.reg, i + 1) == DibitInRegister(st.reg, i)
  {
  }

  // ---- How they begin ----

  /** n ones have gone into a cleared register, and out again. */
  predicate FreshOnes(st: Scrambler, n: nat) {
    n <= 32 && st.ones == n && forall k | 0 <= k < 32 :: st.reg[k] == (k < n)
  }

  lemma FreshFromCleared()
    ensures FreshOnes(Cleared(), 0)
  {
  }

  /** As long as the first of them has not reached a tap, every dibit is 11; then one is 00. */
  lemma FreshDibit(t: Taps, st: Scrambler, n: nat)
    requires t == CALLING_TAPS || t == ANSWERING_TAPS
    requires FreshOnes(st, n) && n % 2 == 0 && n <= t.tap1 + 1
    ensures var (st', first, second) := TwoOnes(t, st);
            if n <= t.tap1 then first && second && FreshOnes(st', n + 2)
            else !first && !second
  {
  }

  // ---- What they cannot be ----

  /** Bit i of the register obeys the polynomial for a source of ones, unless the four bits before it are all ones and
      the guard may have acted. */
  predicate Lawful(t: Taps, reg: Register, i: nat)
    requires t.Valid() && i + 1 + t.tap2 < 32 && i + 4 < 32
  {
    (reg[i + 1] && reg[i + 2] && reg[i + 3] && reg[i + 4]) || reg[i] == (reg[i + 1 + t.tap1] == reg[i + 1 + t.tap2])
  }

  /** The n newest bits do. */
  predicate LawfulTo(t: Taps, reg: Register, n: nat)
    requires t.Valid() && n + t.tap2 < 32 && n + 3 < 32
  {
    forall i | 0 <= i < n :: Lawful(t, reg, i)
  }

  lemma BitIsLawful(t: Taps, st: Scrambler, n: nat)
    requires t.Valid() && t.tap2 < 24 && n <= 4 && Counts(st) && LawfulTo(t, st.reg, n)
    ensures var st' := ScrambleBit(t, st, true).0;
            Counts(st') && LawfulTo(t, st'.reg, n + 1)
  {
    var st' := ScrambleBit(t, st, true).0;
    CountsKept(t, st, true);
    forall i | 0 <= i < n + 1 ensures Lawful(t, st'.reg, i) {
      if i > 0 {
        assert Lawful(t, st.reg, i - 1);
      }
    }
  }

  /** Two symbols of scrambled ones, and the four newest bits are lawful, whatever was in the register before. */
  lemma SymbolIsLawful(t: Taps, st: Scrambler, n: nat)
    requires t.Valid() && t.tap2 < 24 && n <= 4 && Counts(st) && LawfulTo(t, st.reg, n)
    ensures Counts(TwoOnes(t, st).0)
    ensures LawfulTo(t, TwoOnes(t, st).0.reg, if n + 2 <= 4 then n + 2 else 4)
  {
    hide ScrambleBit, Lawful;
    BitIsLawful(t, st, n);
    var st1 := ScrambleBit(t, st, true).0;
    BitIsLawful(t, st1, if n + 1 <= 4 then n + 1 else 4);
  }

  /** The newest dibits of the register, m of them, alternate. */
  predicate AlternatingDibits(reg: Register, m: nat) {
    forall i | 0 <= i && i + 1 < m && i + 1 < 16 :: DibitInRegister(reg, i) + DibitInRegister(reg, i + 1) == 3
  }

  lemma {:induction false} DibitAt(reg: Register, i: nat)
    requires AlternatingDibits(reg, 15) && i < 15
    requires DibitInRegister(reg, 0) == 0 || DibitInRegister(reg, 0) == 3
    ensures DibitInRegister(reg, i) == if i % 2 == 0 then DibitInRegister(reg, 0) else 3 - DibitInRegister(reg, 0)
  {
    hide DibitInRegister;
    if i > 0 {
      DibitAt(reg, i - 1);
      assert DibitInRegister(reg, i - 1) + DibitInRegister(reg, i - 1 + 1) == 3;
    }
  }

  lemma BitsAt(reg: Register, i: nat)
    requires i < 16 && (DibitInRegister(reg, i) == 0 || DibitInRegister(reg, i) == 3)
    ensures reg[2 * i] == reg[2 * i + 1] == (DibitInRegister(reg, i) == 3)
  {
  }

  /** Scrambled ones never look like S1: with lawful bits in front, no 15 dibits alternate between 00 and 11. */
  lemma NeverS1(t: Taps, reg: Register)
    requires t == CALLING_TAPS || t == ANSWERING_TAPS
    requires LawfulTo(t, reg, 4) && AlternatingDibits(reg, 15)
    ensures DibitInRegister(reg, 0) != 0 && DibitInRegister(reg, 0) != 3
  {
    if DibitInRegister(reg, 0) == 0 || DibitInRegister(reg, 0) == 3 {
      var x := DibitInRegister(reg, 0) == 3;
      assert forall i | 0 <= i < 15 :: reg[2 * i] == reg[2 * i + 1] == (if i % 2 == 0 then x else !x) by {
        hide AlternatingDibits, DibitInRegister;
        forall i | 0 <= i < 15 ensures reg[2 * i] == reg[2 * i + 1] == (if i % 2 == 0 then x else !x) {
          DibitAt(reg, i);
          BitsAt(reg, i);
        }
      }
      hide DibitInRegister, AlternatingDibits;
      PeriodFour(reg, x);
      AlternationIsUnlawful(t, reg, x);
    }
  }

  lemma AlternationIsUnlawful(t: Taps, reg: Register, x: bool)
    requires t == CALLING_TAPS || t == ANSWERING_TAPS
    requires forall m | 0 <= m < 30 :: reg[m] == if m % 4 < 2 then x else !x
    ensures !LawfulTo(t, reg, 4)
  {
    if t == CALLING_TAPS {
      var i := if x then 0 else 1;
      assert reg[i + 14] == !reg[i] && reg[i + 17] && reg[i + 1];
      assert !Lawful(t, reg, i);
    } else {
      var i := if x then 1 else 0;
      assert reg[i + 18] == !reg[i] && reg[i + 23] && reg[i + 3];
      assert !Lawful(t, reg, i);
    }
  }

  /** Both bits of every dibit, spelled out by position. */
  lemma PeriodFour(reg: Register, x: bool)
    requires forall i | 0 <= i < 15 :: reg[2 * i] == reg[2 * i + 1] == (if i % 2 == 0 then x else !x)
    ensures forall m | 0 <= m < 30 :: reg[m] == if m % 4 < 2 then x else !x
  {
    forall m | 0 <= m < 30 ensures reg[m] == if m % 4 < 2 then x else !x {
      var i := m / 2;
      assert reg[2 * i] == reg[2 * i + 1] == (if i % 2 == 0 then x else !x);
    }
  }
}
