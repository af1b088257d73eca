/** The V.22bis scrambler and descrambler: a self-synchronising shift register with a guard that
    breaks up long runs of line ones (section 5 of ITU-T V.22bis).
    The 32-bit register is the sequence of its bits; index k is bit k, so bit 0 is the newest. */
module V22Scrambler {
  import opened Sequences

  datatype Taps = Taps(tap1: nat, tap2: nat) {
    predicate Valid() {
      tap1 < tap2 < 32
    }
  }

  const CALLING_TAPS := Taps(13, 16)
  const ANSWERING_TAPS := Taps(17, 22)

  type Register = r: seq<bool> | |r| == 32 witness seq(32, _ => false)

  datatype Scrambler = Scrambler(reg: Register, ones: nat)

  function Cleared(): (st: Scrambler)
    ensures st.ones == 0 && forall k | 0 <= k < 32 :: !st.reg[k]
  {
    Scrambler(seq(32, _ => false), 0)
  }

  function Xor(a: bool, b: bool): (r: bool) {
    a != b
  }

  function ShiftIn(reg: Register, bit: bool): (r: Register)
    ensures r[0] == bit
    ensures forall k | 1 <= k < 32 :: r[k] == reg[k - 1]
  {
    [bit] + reg[..31]
  }

  /** What the two taps contribute. */
  function Feedback(t: Taps, reg: Register): (r: bool)
    requires t.Valid()
  {
    Xor(reg[t.tap1], reg[t.tap2])
  }

  predicate GuardDue(st: Scrambler) {
    st.ones >= 64
  }

  function ScrambleBit(t: Taps, st: Scrambler, bit: bool): (r: (Scrambler, bool))
    requires t.Valid()
  {
    var b := if GuardDue(st) then !bit else bit;
    var ones := if GuardDue(st) then 0 else st.ones;
    var out := Xor(b, Feedback(t, st.reg));
    (Scrambler(ShiftIn(st.reg, out), if out then ones + 1 else 0), out)
  }

  function DescrambleBit(t: Taps, st: Scrambler, bit: bool): (r: (Scrambler, bool))
    requires t.Valid()
  {
    var raw := Xor(bit, Feedback(t, st.reg));
    var out := if GuardDue(st) then !raw else raw;
    var ones := if GuardDue(st) then 0 else st.ones;
    (Scrambler(ShiftIn(st.reg, bit), if bit then ones + 1 else 0), out)
  }

  function ScrambleRun(t: Taps, st: Scrambler, bits: seq<bool>): (r: (Scrambler, seq<bool>))
    requires t.Valid()
    ensures |r.1| == |bits|
    decreases |bits|
  {
    if bits == [] then (st, [])
    else
      var (st1, out) := ScrambleBit(t, st, bits[0]);
      var (st2, rest) := ScrambleRun(t, st1, bits[1..]);
      (st2, [out] + rest)
  }

  function DescrambleRun(t: Taps, st: Scrambler, line: seq<bool>): (r: (Scrambler, seq<bool>))
    requires t.Valid()
    ensures |r.1| == |line|
    decreases |line|
  {
    if line == [] then (st, [])
    else
      var (st1, out) := DescrambleBit(t, st, line[0]);
      var (st2, rest) := DescrambleRun(t, st1, line[1..]);
      (st2, [out] + rest)
  }

  // ---- Runs in pieces ----

  lemma {:induction false} ScrambleInPieces(t: Taps, st: Scrambler, a: seq<bool>, b: seq<bool>)
    requires t.Valid()
    ensures var (mid, la) := ScrambleRun(t, st, a);
            var (end, lb) := ScrambleRun(t, mid, b);
            ScrambleRun(t, st, a + b) == (end, la + lb)
    decreases |a|
  {
    hide ScrambleBit;
    if a == [] {
      assert a + b == b;
      assert [] + ScrambleRun(t, st, b).1 == ScrambleRun(t, st, b).1;
    } else {
      var (st1, out) := ScrambleBit(t, st, a[0]);
      ScrambleInPieces(t, st1, a[1..], b);
      assert (a + b)[1..] == a[1..] + b;
      var (mid, la) := ScrambleRun(t, st1, a[1..]);
      Regroup([out], la, ScrambleRun(t, mid, b).1);
    }
  }

  lemma {:induction false} DescrambleInPieces(t: Taps, st: Scrambler, a: seq<bool>, b: seq<bool>)
    requires t.Valid()
    ensures var (mid, xa) := DescrambleRun(t, st, a);
            var (end, xb) := DescrambleRun(t, mid, b);
            DescrambleRun(t, st, a + b) == (end, xa + xb)
    decreases |a|
  {
    hide DescrambleBit;
    if a == [] {
      assert a + b == b;
      assert [] + DescrambleRun(t, st, b).1 == DescrambleRun(t, st, b).1;
    } else {
      var (st1, out) := DescrambleBit(t, st, a[0]);
      DescrambleInPieces(t, st1, a[1..], b);
      assert (a + b)[1..] == a[1..] + b;
      var (mid, xa) := DescrambleRun(t, st1, a[1..]);
      Regroup([out], xa, DescrambleRun(t, mid, b).1);
    }
  }

  // ---- The polynomial ----

  /** The register holds the newest bits of the line, newest first. */
  lemma {:induction false} RegisterIsLine(t: Taps, st: Scrambler, bits: seq<bool>, k: nat)
    requires t.Valid() && k < 32 && k < |bits|
    ensures var (st', line) := ScrambleRun(t, st, bits); st'.reg[k] == line[|bits| - 1 - k]
    decreases |bits|
  {
    hide ScrambleBit;
    var (st1, out) := ScrambleBit(t, st, bits[0]);
    if k < |bits| - 1 {
      RegisterIsLine(t, st1, bits[1..], k);
    } else {
      OldestBit(t, st, bits);
    }
  }

  lemma {:induction false} RegisterShifts(t: Taps, st: Scrambler, bits: seq<bool>, k: nat)
    requires t.Valid() && k + |bits| < 32
    ensures ScrambleRun(t, st, bits).0.reg[k + |bits|] == st.reg[k]
    decreases |bits|
  {
    if bits != [] {
      RegisterShifts(t, ScrambleBit(t, st, bits[0]).0, bits[1..], k + 1);
    }
  }

  lemma OldestBit(t: Taps, st: Scrambler, bits: seq<bool>)
    requires t.Valid() && 0 < |bits| <= 32
    ensures var (st', line) := ScrambleRun(t, st, bits); st'.reg[|bits| - 1] == line[0]
  {
    RegisterShifts(t, ScrambleBit(t, st, bits[0]).0, bits[1..], 0);
  }

  /** The scrambler is the polynomial of its taps: every line bit is the source bit plus the line bits as many places
      back as the taps say, except at a guard instant, where it is inverted. */
  lemma ScramblesByPolynomial(t: Taps, st: Scrambler, bits: seq<bool>, n: nat)
    requires t.Valid() && t.tap2 < n < |bits|
    ensures var line := ScrambleRun(t, st, bits).1;
            var guard := GuardDue(ScrambleRun(t, st, bits[..n]).0);
            line[n] == Xor(if guard then !bits[n] else bits[n], Xor(line[n - 1 - t.tap1], line[n - 1 - t.tap2]))
  {
    var before := bits[..n];
    assert before + bits[n..] == bits;
    ScrambleInPieces(t, st, before, bits[n..]);
    RegisterIsLine(t, st, before, t.tap1);
    RegisterIsLine(t, st, before, t.tap2);
    var mid, line := ScrambleRun(t, st, before).0, ScrambleRun(t, st, before).1;
    assert ScrambleRun(t, mid, bits[n..]).1[0] == ScrambleBit(t, mid, bits[n]).1;
    assert ScrambleRun(t, st, bits).1[..n] == line;
  }

  // ---- Synchronism ----

  /** The receiver's register agrees with the transmitter's on its n newest bits, and on the guard
      counter if counted is set. */
  predicate Agree(n: nat, counted: bool, tx: Scrambler, rx: Scrambler) {
    && n <= 32
    && (forall k | 0 <= k < n :: tx.reg[k] == rx.reg[k])
    && (counted ==> tx.ones == rx.ones)
  }

  /** One line bit brings the registers one bit closer; a line zero also aligns the guard counters. */
  lemma AgreementGrows(t: Taps, n: nat, counted: bool, tx: Scrambler, rx: Scrambler, bit: bool)
    requires t.Valid() && Agree(n, counted, tx, rx)
    ensures var (tx', line) := ScrambleBit(t, tx, bit);
            Agree(if n < 32 then n + 1 else 32, counted || !line, tx', DescrambleBit(t, rx, line).0)
  {
  }

  lemma InverseBit(t: Taps, n: nat, tx: Scrambler, rx: Scrambler, bit: bool)
    requires t.Valid() && t.tap2 < n && Agree(n, true, tx, rx)
    ensures var (tx', line) := ScrambleBit(t, tx, bit);
            && DescrambleBit(t, rx, line).1 == bit
            && Agree(n, true, tx', DescrambleBit(t, rx, line).0)
  {
    AgreementGrows(t, n, true, tx, rx, bit);
  }

  /** From synchronised states the descrambler undoes the scrambler for every bit string, guard
      included, and stays synchronised. */
  lemma {:induction false} DescrambleUndoesScramble(t: Taps, n: nat, tx: Scrambler, rx: Scrambler, bits: seq<bool>)
    requires t.Valid() && t.tap2 < n && Agree(n, true, tx, rx)
    ensures var (tx', line) := ScrambleRun(t, tx, bits);
            && DescrambleRun(t, rx, line).1 == bits
            && Agree(n, true, tx', DescrambleRun(t, rx, line).0)
    decreases |bits|
  {
    hide ScrambleBit, DescrambleBit, Agree;
    if bits != [] {
      InverseBit(t, n, tx, rx, bits[0]);
      var (tx1, line) := ScrambleBit(t, tx, bits[0]);
      DescrambleUndoesScramble(t, n, tx1, DescrambleBit(t, rx, line).0, bits[1..]);
    }
  }

  lemma {:induction false} AgreementAfterRun(t: Taps, n: nat, counted: bool, tx: Scrambler, rx: Scrambler,
                                             bits: seq<bool>)
    requires t.Valid() && Agree(n, counted, tx, rx)
    ensures var (tx', line) := ScrambleRun(t, tx, bits);
            Agree(if n + |bits| < 32 then n + |bits| else 32, counted || false in line, tx',
                  DescrambleRun(t, rx, line).0)
    decreases |bits|
  {
    assert n <= 32;
    hide ScrambleBit, DescrambleBit, Agree;
    if bits != [] {
      AgreementGrows(t, n, counted, tx, rx, bits[0]);
      var (tx1, line) := ScrambleBit(t, tx, bits[0]);
      AgreementAfterRun(t, if n < 32 then n + 1 else 32, counted || !line, tx1, DescrambleBit(t, rx, line).0,
                        bits[1..]);
    }
  }

  /** Self-synchronisation. Whatever the receiver's register and counter hold, once more line bits
      than the longer tap have gone by, one of them a zero, everything after is recovered. */
  lemma SelfSynchronises(t: Taps, tx: Scrambler, rx: Scrambler, lead: seq<bool>, data: seq<bool>)
    requires t.Valid() && |lead| > t.tap2 && false in ScrambleRun(t, tx, lead).1
    ensures DescrambleRun(t, rx, ScrambleRun(t, tx, lead + data).1).1[|lead|..] == data
  {
    AgreementAfterRun(t, 0, false, tx, rx, lead);
    var (tx1, leadLine) := ScrambleRun(t, tx, lead);
    var rx1 := DescrambleRun(t, rx, leadLine).0;
    DescrambleUndoesScramble(t, if |lead| < 32 then |lead| else 32, tx1, rx1, data);
    ScrambleInPieces(t, tx, lead, data);
    DescrambleInPieces(t, rx, leadLine, ScrambleRun(t, tx1, data).1);
  }

  // ---- Runs of line ones ----

  /** The guard counter counts line ones that are still in the register. */
  predicate Counts(st: Scrambler)
    ensures Counts(st) ==> st.ones <= 64
  {
    st.ones <= 64 && forall k | 0 <= k < st.ones && k < 32 :: st.reg[k]
  }

  lemma CountsKept(t: Taps, st: Scrambler, bit: bool)
    requires t.Valid() && Counts(st)
    ensures Counts(ScrambleBit(t, st, bit).0) && Counts(DescrambleBit(t, st, bit).0)
  {
  }

  /** When the guard is due both taps read a one and cancel, so the line carries the inverted bit. */
  lemma GuardInverts(t: Taps, st: Scrambler, bit: bool)
    requires t.Valid() && Counts(st) && GuardDue(st)
    ensures ScrambleBit(t, st, bit).1 == !bit
  {
  }

  lemma {:induction false} CountsAfterRun(t: Taps, st: Scrambler, bits: seq<bool>)
    requires t.Valid() && Counts(st)
    ensures Counts(ScrambleRun(t, st, bits).0)
    decreases |bits|
  {
    if bits != [] {
      CountsKept(t, st, bits[0]);
      CountsAfterRun(t, ScrambleBit(t, st, bits[0]).0, bits[1..]);
    }
  }

  predicate AllOnes(line: seq<bool>) {
    forall i | 0 <= i < |line| :: line[i]
  }

  /** A run of line ones that outlasts the counter passed a guard instant, and it got through only
      because the source bit at that instant was a zero. */
  lemma {:induction false} LongRunNeedsZeroAtGuard(t: Taps, st: Scrambler, bits: seq<bool>)
    requires t.Valid() && Counts(st) && st.ones + |bits| > 64 && AllOnes(ScrambleRun(t, st, bits).1)
    ensures var at := 64 - st.ones;
            GuardDue(ScrambleRun(t, st, bits[..at]).0) && !bits[at]
    decreases |bits|
  {
    var (st1, out) := ScrambleBit(t, st, bits[0]);
    assert out == ScrambleRun(t, st, bits).1[0];
    if GuardDue(st) {
      GuardInverts(t, st, bits[0]);
    } else {
      CountsKept(t, st, bits[0]);
      var rest := ScrambleRun(t, st1, bits[1..]).1;
      assert AllOnes(rest) by {
        forall i | 0 <= i < |rest| ensures rest[i] { assert rest[i] == ScrambleRun(t, st, bits).1[i + 1]; }
      }
      LongRunNeedsZeroAtGuard(t, st1, bits[1..]);
      var at := 64 - st.ones;
      assert bits[..at][1..] == bits[1..][..at - 1];
    }
  }

  /** An idle line, scrambled ones from any reachable state on, never carries 65 ones in a row. */
  lemma IdleRunBound(t: Taps, st: Scrambler, bits: seq<bool>, i: nat)
    requires t.Valid() && Counts(st) && AllOnes(bits) && i + 65 <= |bits|
    ensures !AllOnes(ScrambleRun(t, st, bits).1[i..i + 65])
  {
    hide ScrambleRun, ScrambleBit, Counts;
    var lead, window, tail := bits[..i], bits[i..i + 65], bits[i + 65..];
    ScrambleInPieces(t, st, lead, window + tail);
    assert lead + (window + tail) == bits;
    var mid := ScrambleRun(t, st, lead).0;
    ScrambleInPieces(t, mid, window, tail);
    CountsAfterRun(t, st, lead);
    var line := ScrambleRun(t, mid, window).1;
    assert ScrambleRun(t, st, bits).1[i..i + 65] == line;
    assert AllOnes(window);
    if AllOnes(line) {
      LongRunNeedsZeroAtGuard(t, mid, window);
      assert false;
    }
  }

  lemma ClearedCounts()
    ensures Counts(Cleared())
  {
  }

  /** So on the line of a modem from power-up on: whatever was sent before, idle never has 65 ones in a row. */
  lemma IdleRunBoundFromStart(t: Taps, before: seq<bool>, idle: seq<bool>, i: nat)
    requires t.Valid() && AllOnes(idle) && i + 65 <= |idle|
    ensures var line, at := ScrambleRun(t, Cleared(), before + idle).1, |before| + i;
            at + 65 <= |line| && !AllOnes(line[at..at + 65])
  {
    hide ScrambleRun, Counts, AllOnes, Cleared;
    ClearedCounts();
    CountsAfterRun(t, Cleared(), before);
    ScrambleInPieces(t, Cleared(), before, idle);
    var (mid, head) := ScrambleRun(t, Cleared(), before);
    IdleRunBound(t, mid, idle, i);
    var line := ScrambleRun(t, mid, idle).1;
    var at := |before| + i;
    assert (head + line)[at..at + 65] == line[i..i + 65];
  }
}
