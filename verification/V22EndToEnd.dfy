/** Bytes from one data socket to the other across a V.22bis line: bit pipe, scrambler, constellation, line, slicer,
    descrambler, bit pipe. */
module V22EndToEnd {
  import opened BitPipe
  import opened ByteBits
  import opened Sequences
  import opened V22Constellation
  import opened V22DataPath
  import opened V22Scrambler

  /** A string of whole symbols. */
  lemma CountIsWhole(wide: bool, bits: nat, symbols: nat)
    requires bits == BitCount(wide, symbols)
    ensures Whole(wide, bits)
  {
    if wide {
      assert 4 * symbols % 4 == 0;
    } else {
      assert 2 * symbols % 2 == 0;
    }
  }

  lemma SameCount(wide: bool, x: nat, y: nat)
    requires BitCount(wide, x) == BitCount(wide, y)
    ensures x == y
  {
  }

  /** What the far end's sink, which already holds the beginning of a byte, makes of these bits after this line.
      There is one noise value for each symbol. */
  function Carried(t: Taps, wide: bool, k: nat, tx: Sender, rx: Receiver, held: seq<bool>, bits: seq<bool>,
                   noise: seq<Complex>): (bytes: seq<Byte>)
    requires t.Valid() && k < 4 && tx.quadrant < 4 && rx.last < 16 && |bits| == BitCount(wide, |noise|)
  {
    CountIsWhole(wide, |bits|, |noise|);
    SameCount(wide, |SendRun(t, wide, tx, bits).1|, |noise|);
    Assembled(held + ReceiveRun(t, wide, rx, Line(k, SendRun(t, wide, tx, bits).1, noise)).1)
  }

  /** A synchronised receiver with its sink at a byte boundary delivers every byte string, at both rates. */
  lemma BytesGetThrough(t: Taps, wide: bool, k: nat, n: nat, tx: Sender, rx: Receiver, bytes: seq<Byte>,
                        noise: seq<Complex>)
    requires t.Valid() && k < 4 && tx.quadrant < 4 && rx.last < 16
    requires rx.last / 4 == (tx.quadrant + k) % 4
    requires t.tap2 < n && Agree(n, true, tx.scr, rx.scr)
    requires 8 * |bytes| == BitCount(wide, |noise|) && AllTolerable(wide, noise)
    ensures Carried(t, wide, k, tx, rx, [], BitsOf(bytes), noise) == bytes
  {
    hide ReceiveRun, SendRun, Line, Agree, AllTolerable, Assembled, Whole, BitCount;
    CountIsWhole(wide, 8 * |bytes|, |noise|);
    SameCount(wide, |SendRun(t, wide, tx, BitsOf(bytes)).1|, |noise|);
    BitsGetThrough(t, wide, k, n, tx, rx, BitsOf(bytes), noise);
    AssembledUndoesBits(bytes);
    assert [] + BitsOf(bytes) == BitsOf(bytes);
  }

  /** Whole bytes in front do not disturb the assembly of what follows. */
  lemma {:induction false} AssembledFurther(head: seq<bool>, bits: seq<bool>, n: nat)
    requires |head| == 8 * n
    ensures |Assembled(head)| == n && Assembled(head + bits) == Assembled(head) + Assembled(bits)
    decreases n
  {
    if n == 0 {
      assert head + bits == bits;
    } else {
      AssembledFurther(head[8..], bits, n - 1);
      assert (head + bits)[..8] == head[..8] && (head + bits)[8..] == head[8..] + bits;
      var first: seq<Byte> := [head[..8]];
      Regroup(first, Assembled(head[8..]), Assembled(bits));
    }
  }

  /** A scrambled idle stretch of 65 bits has a zero in it. */
  lemma IdleHasZero(t: Taps, st: Scrambler, n: nat)
    requires t.Valid() && Counts(st) && n >= 65
    ensures false in ScrambleRun(t, st, Ones(n)).1
  {
    hide ScrambleRun, Counts;
    IdleRunBound(t, st, Ones(n), 0);
    var line := ScrambleRun(t, st, Ones(n)).1;
    var i :| 0 <= i < 65 && !line[0..65][i];
    assert line[i] == false;
  }

  /** From any state of the receiving modem at all, wrong reference, wrong register and wrong guard counter: all bits
      after 69 or more idle ones are received, at either rate, with any right-angle phase error and any tolerable
      noise. The zero that synchronisation needs is never missing, because the guard puts it there. */
  lemma IdleThenBits(t: Taps, wide: bool, k: nat, tx: Sender, rx: Receiver, idle: nat, data: seq<bool>,
                     noise: seq<Complex>)
    requires t.Valid() && k < 4 && tx.quadrant < 4 && rx.last < 16 && Counts(tx.scr) && idle >= 69
    requires idle + |data| == BitCount(wide, |noise|) && AllTolerable(wide, noise)
    ensures Whole(wide, |Ones(idle) + data|) && |SendRun(t, wide, tx, Ones(idle) + data).1| == |noise|
    ensures var got := ReceiveRun(t, wide, rx, Line(k, SendRun(t, wide, tx, Ones(idle) + data).1, noise)).1;
            |got| == idle + |data| && got[idle..] == data
  {
    var n := BitsPerSymbol(wide);
    assert n <= 4 && |noise| > 0;
    hide ReceiveRun, SendRun, Line, AllTolerable, ScrambleRun, Counts, BitCount, Whole, BitsPerSymbol;
    var first, lead := Ones(n), Ones(idle - n);
    assert first + (lead + data) == Ones(idle) + data;
    CountIsWhole(wide, idle + |data|, |noise|);
    OneMoreSymbol(wide, |noise| - 1);
    CountIsWhole(wide, |lead + data|, |noise| - 1);
    SameCount(wide, |SendRun(t, wide, tx, Ones(idle) + data).1|, |noise|);
    CountsAfterRun(t, tx.scr, first);
    IdleHasZero(t, ScrambleRun(t, tx.scr, first).0, idle - n);
    ReceiverFindsItself(t, wide, k, tx, rx, first, lead, data, noise);
  }

  /** From any state of the receiving modem, every byte sent arrives in place, provided the idle ones fill up the byte
      the far end's sink was in the middle of. From a byte boundary nine idle bytes are enough. */
  lemma IdleThenBytes(t: Taps, wide: bool, k: nat, tx: Sender, rx: Receiver, held: seq<bool>, idle: nat,
                      bytes: seq<Byte>, filled: nat, noise: seq<Complex>)
    requires t.Valid() && k < 4 && tx.quadrant < 4 && rx.last < 16 && Counts(tx.scr)
    requires idle >= 69 && |held| + idle == 8 * filled
    requires idle + 8 * |bytes| == BitCount(wide, |noise|) && AllTolerable(wide, noise)
    ensures var got := Carried(t, wide, k, tx, rx, held, Ones(idle) + BitsOf(bytes), noise);
            |got| == filled + |bytes| && got[filled..] == bytes
  {
    hide ReceiveRun, SendRun, Line, AllTolerable, Assembled, Counts, BitsOf, BitCount, Whole;
    var data := BitsOf(bytes);
    IdleThenBits(t, wide, k, tx, rx, idle, data, noise);
    var got := ReceiveRun(t, wide, rx, Line(k, SendRun(t, wide, tx, Ones(idle) + data).1, noise)).1;
    assert got == got[..idle] + data;
    Regroup(held, got[..idle], data);
    AssembledFurther(held + got[..idle], data, filled);
    AssembledUndoesBits(bytes);
  }

  /** The filling matters: if the idle ones leave the sink inside a byte, a zero byte does not arrive in place. */
  lemma UnfilledByteLost(t: Taps, wide: bool, k: nat, tx: Sender, rx: Receiver, held: seq<bool>, idle: nat,
                         filled: nat, noise: seq<Complex>)
    requires t.Valid() && k < 4 && tx.quadrant < 4 && rx.last < 16 && Counts(tx.scr)
    requires idle >= 77 && 0 < |held| + idle - 8 * filled < 8
    requires idle + 8 == BitCount(wide, |noise|) && AllTolerable(wide, noise)
    ensures var got := Carried(t, wide, k, tx, rx, held, Ones(idle) + BitsOf([ZERO]), noise);
            |got| == filled + 1 && got[filled] != ZERO
  {
    hide ReceiveRun, SendRun, Line, AllTolerable, Assembled, Counts, BitsOf, BitCount, Whole;
    var early := idle - (|held| + idle - 8 * filled);
    var late, data := Ones(idle - early), BitsOf([ZERO]);
    assert Ones(idle) + data == Ones(early) + (late + data);
    IdleThenBits(t, wide, k, tx, rx, early, late + data, noise);
    var got := ReceiveRun(t, wide, rx, Line(k, SendRun(t, wide, tx, Ones(idle) + data).1, noise)).1;
    assert got == got[..early] + (late + data);
    Regroup(held, got[..early], late + data);
    AssembledFurther(held + got[..early], late + data, filled);
    OneByteAndSome(late + data);
  }

  lemma OneByteAndSome(bits: seq<bool>)
    requires 8 <= |bits| < 16 && bits[0]
    ensures |Assembled(bits)| == 1 && Assembled(bits)[0] != ZERO
  {
    assert Assembled(bits)[0] == bits[..8] && bits[..8][0];
    assert !ZERO[0];
  }
}
