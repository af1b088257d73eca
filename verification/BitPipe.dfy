/** The bit pipes between the data socket and the V.22bis modem: bytes become source bits on one side, recovered
    bits become bytes on the other. */
module BitPipe {
  import opened ByteBits
  import opened Sequences

  const QUEUE := 4096

  // ---- Towards the line ----

  class Source {
    const q: array<Byte>
    var len: nat       // bytes valid in the queue
    var rd: nat        // read cursor
    var cur: Byte      // byte being shifted out
    var curBits: nat   // bits left in it

    ghost predicate Valid()
      reads this
    {
      q.Length == QUEUE && rd <= len <= QUEUE && curBits <= 8
    }

    /** The bits still to be sent, in order. */
    ghost function Pending(): (bits: seq<bool>)
      requires Valid()
      reads this, q
    {
      cur[..curBits] + BitsOf(q[rd..len])
    }

    constructor ()
      ensures Valid() && fresh(q) && Pending() == []
    {
      q := new Byte[QUEUE](_ => ZERO);
      len, rd, cur, curBits := 0, 0, ZERO, 0;
    }

    /** sess_get_bit. An idle one is inserted only when nothing is pending, that is between two bytes. */
    method GetBit() returns (bit: bool)
      requires Valid()
      modifies this`rd, this`cur, this`curBits
      ensures Valid()
      ensures if old(Pending()) == [] then bit && Pending() == [] && curBits == 0
              else [bit] + Pending() == old(Pending())
      ensures old(Pending()) == [] <==> old(curBits) == 0 && old(rd) == len
    {
      if curBits == 0 {
        if rd >= len { return true; }
        assert q[rd..len] == [q[rd]] + q[rd + 1..len];
        cur := q[rd];
        rd := rd + 1;
        curBits := 8;
        assert cur[..8] == cur;
      }
      bit := cur[0];
      ghost var before := cur;
      cur := cur[1..] + [false];
      curBits := curBits - 1;
      assert before[..curBits + 1] == [bit] + cur[..curBits];
    }

    /** Move the unread bytes to the front of the queue. */
    method Compact()
      requires Valid()
      modifies this`len, this`rd, q
      ensures Valid() && rd == 0 && len == old(len) - old(rd) && Pending() == old(Pending())
    {
      var n := len - rd;
      for i := 0 to n
        invariant rd == old(rd) && len == old(len)
        invariant forall k | 0 <= k < i :: q[k] == old(q[rd + k])
        invariant forall k | i <= k < QUEUE :: q[k] == old(q[k])
      {
        q[i] := q[rd + i];
      }
      assert q[0..n] == old(q[rd..len]);
      len := n;
      rd := 0;
    }

    /** One turn of the event loop for the data socket. It is polled only while the queue, as it stands before
        compaction, has room; then as much is read as fits and as the peer has sent. */
    method Poll(available: seq<Byte>) returns (taken: nat)
      requires Valid()
      modifies this`len, this`rd, q
      ensures Valid() && taken <= |available|
      ensures Pending() == old(Pending()) + BitsOf(available[..taken])
      ensures old(len) == QUEUE ==> taken == 0
      ensures old(len) < QUEUE ==> taken == |available| || len == QUEUE
    {
      taken := 0;
      if QUEUE - len > 0 {
        if rd > 0 { Compact(); }
        var room := QUEUE - len;
        taken := if |available| < room then |available| else room;
        Append(available[..taken]);
      } else {
        assert BitsOf(available[..0]) == [];
        assert Pending() + [] == Pending();
      }
    }

    method Append(bytes: seq<Byte>)
      requires Valid() && len + |bytes| <= QUEUE
      modifies this`len, q
      ensures Valid() && len == old(len) + |bytes| && Pending() == old(Pending()) + BitsOf(bytes)
    {
      hide BitsOf;
      for i := 0 to |bytes|
        invariant len == old(len)
        invariant q[..len] == old(q[..len])
        invariant q[len..len + i] == bytes[..i]
      {
        q[len + i] := bytes[i];
      }
      var end := len + |bytes|;
      assert q[rd..len] == q[..len][rd..] && old(q[rd..len]) == old(q[..len])[rd..];
      assert q[len..end] == bytes;
      assert q[rd..end] == q[rd..len] + q[len..end];
      BitsJoin(old(q[rd..len]), bytes);
      len := len + |bytes|;
    }
  }

  // ---- From the line ----

  class Sink {
    const q: array<Byte>
    var len: nat
    var cur: Byte      // byte being assembled
    var curBits: nat   // bits collected in it

    ghost predicate Valid()
      reads this
    {
      q.Length == QUEUE && len <= QUEUE && curBits < 8 && forall k | curBits <= k < 8 :: !cur[k]
    }

    /** Everything received that is still here: whole bytes, then the byte being assembled. */
    ghost function Held(): (bits: seq<bool>)
      requires Valid()
      reads this, q
    {
      BitsOf(q[..len]) + cur[..curBits]
    }

    constructor ()
      ensures Valid() && fresh(q) && Held() == []
    {
      q := new Byte[QUEUE](_ => ZERO);
      len, cur, curBits := 0, ZERO, 0;
    }

    /** sess_put_bit. Bits are never reordered; a whole byte is lost if the queue is full when it completes. */
    method PutBit(bit: bool)
      requires Valid()
      modifies this`len, this`cur, this`curBits, q
      ensures Valid()
      ensures if old(curBits) < 7 || old(len) < QUEUE then Held() == old(Held()) + [bit]
              else Held() == BitsOf(old(q[..len])) && len == QUEUE
    {
      ghost var before := cur;
      cur := cur[curBits := cur[curBits] || bit];
      curBits := curBits + 1;
      assert cur[..curBits] == before[..curBits - 1] + [bit];
      assert BitsOf(q[..len]) + (before[..curBits - 1] + [bit]) == (BitsOf(q[..len]) + before[..curBits - 1]) + [bit];
      if curBits == 8 {
        assert cur[..8] == cur;
        Complete();
      }
    }

    /** A byte is complete: queue it if there is room, and start the next one. */
    method Complete()
      requires q.Length == QUEUE && len <= QUEUE && curBits == 8
      modifies this`len, this`cur, this`curBits, q
      ensures Valid() && curBits == 0
      ensures if old(len) < QUEUE then Held() == BitsOf(old(q[..len])) + old(cur) && len == old(len) + 1
              else Held() == BitsOf(old(q[..len])) && len == QUEUE
    {
      if len < QUEUE {
        q[len] := cur;
        assert q[..len + 1] == old(q[..len]) + [cur];
        BitsJoin(old(q[..len]), [cur]);
        assert BitsOf([cur]) == cur by { assert [cur][1..] == [] && cur + [] == cur; }
        len := len + 1;
      }
      cur := ZERO;
      curBits := 0;
      assert BitsOf(q[..len]) + [] == BitsOf(q[..len]);
    }

    /** The data socket takes some bytes off the front. */
    method Flush(taken: nat) returns (bytes: seq<Byte>)
      requires Valid() && taken <= len
      modifies this`len, q
      ensures Valid() && len == old(len) - taken
      ensures |bytes| == taken && BitsOf(bytes) + Held() == old(Held())
    {
      hide BitsOf;
      bytes := q[..taken];
      var n := len - taken;
      for i := 0 to n
        invariant forall k | 0 <= k < i :: q[k] == old(q[taken + k])
        invariant forall k | i <= k < QUEUE :: q[k] == old(q[k])
      {
        q[i] := q[taken + i];
      }
      assert q[..n] == old(q[taken..len]);
      assert old(q[..len]) == bytes + q[..n];
      BitsJoin(bytes, q[..n]);
      Regroup(BitsOf(bytes), BitsOf(q[..n]), cur[..curBits]);
      len := n;
    }
  }

  // ---- Whole runs ----

  datatype SourceEvent = Pull | Arrive(bytes: seq<Byte>) | Compaction

  /** What the modem pulls over a run, each bit with the mark of an inserted idle one, and what is left over.
      Pending bits stand for the source's state; DriveSource shows that its object does the same. */
  function Run(pending: seq<bool>, events: seq<SourceEvent>): (r: (seq<bool>, seq<(bool, bool)>))
    decreases |events|
  {
    if events == [] then (pending, [])
    else match events[0]
      case Arrive(bytes) => Run(pending + BitsOf(bytes), events[1..])
      case Compaction => Run(pending, events[1..])
      case Pull =>
        if pending == [] then
          var rest := Run([], events[1..]);
          (rest.0, [(true, true)] + rest.1)
        else
          var rest := Run(pending[1..], events[1..]);
          (rest.0, [(pending[0], false)] + rest.1)
  }

  function Arrived(events: seq<SourceEvent>): (bytes: seq<Byte>) {
    if events == [] then []
    else (if events[0].Arrive? then events[0].bytes else []) + Arrived(events[1..])
  }

  /** The pulled bits without the idle ones. */
  function Data(out: seq<(bool, bool)>): (bits: seq<bool>)
    ensures |bits| <= |out|
  {
    if out == [] then [] else (if out[0].1 then [] else [out[0].0]) + Data(out[1..])
  }

  /** Bits are pulled in the order the bytes arrived, least significant first; none is lost. */
  lemma {:induction false} PipeConserves(pending: seq<bool>, events: seq<SourceEvent>)
    ensures var (left, out) := Run(pending, events);
            Data(out) + left == pending + BitsOf(Arrived(events))
    decreases |events|
  {
    assert Data([]) == [] && BitsOf([]) == [];
    hide Data, BitsOf;
    if events == [] {
      assert [] + pending == pending == pending + [];
    } else {
      var rest := Arrived(events[1..]);
      match events[0]
      case Arrive(bytes) =>
        PipeConserves(pending + BitsOf(bytes), events[1..]);
        BitsJoin(bytes, rest);
        Regroup(pending, BitsOf(bytes), BitsOf(rest));
      case Compaction =>
        PipeConserves(pending, events[1..]);
        assert [] + rest == rest;
      case Pull =>
        var next := if pending == [] then [] else pending[1..];
        PipeConserves(next, events[1..]);
        assert [] + rest == rest;
        PullConserves(pending, next, Run(next, events[1..]).1, Run(next, events[1..]).0, BitsOf(rest));
    }
  }

  lemma PullConserves(pending: seq<bool>, next: seq<bool>, out: seq<(bool, bool)>, left: seq<bool>, rest: seq<bool>)
    requires next == (if pending == [] then [] else pending[1..]) && Data(out) + left == next + rest
    ensures var first := if pending == [] then (true, true) else (pending[0], false);
            Data([first] + out) + left == pending + rest
  {
    var first := if pending == [] then (true, true) else (pending[0], false);
    assert ([first] + out)[1..] == out;
    if pending == [] {
      assert [] + Data(out) == Data(out);
    } else {
      assert ([pending[0]] + Data(out)) + left == [pending[0]] + (next + rest);
      assert [pending[0]] + (next + rest) == pending + rest;
    }
  }

  lemma WholeBytesCancel(bits: int, bytes: nat)
    ensures (bits - 8 * bytes) % 8 == bits % 8
  {
  }

  /** An idle one is always a one and stands between two bytes: before it a whole number of bytes has gone out. */
  lemma {:induction false} IdleBetweenBytes(pending: seq<bool>, events: seq<SourceEvent>, i: nat)
    requires i < |Run(pending, events).1| && Run(pending, events).1[i].1
    ensures var out := Run(pending, events).1;
            out[i].0 && (|Data(out[..i])| - |pending|) % 8 == 0
    decreases |events|
  {
    hide BitsOf;
    var out := Run(pending, events).1;
    match events[0]
    case Arrive(bytes) =>
      IdleBetweenBytes(pending + BitsOf(bytes), events[1..], i);
      WholeBytesCancel(|Data(out[..i])| - |pending|, |bytes|);
    case Compaction =>
      IdleBetweenBytes(pending, events[1..], i);
    case Pull =>
      if i > 0 {
        var next := if pending == [] then [] else pending[1..];
        IdleBetweenBytes(next, events[1..], i - 1);
        assert out[..i][1..] == out[1..][..i - 1];
      }
  }

  // ---- The same runs on the source object ----

  lemma {:induction false} RunInPieces(pending: seq<bool>, a: seq<SourceEvent>, b: seq<SourceEvent>)
    ensures var first := Run(pending, a);
            var second := Run(first.0, b);
            Run(pending, a + b) == (second.0, first.1 + second.1)
    decreases |a|
  {
    hide BitsOf;
    if a == [] {
      assert a + b == b;
      assert [] + Run(pending, b).1 == Run(pending, b).1;
    } else {
      assert (a + b)[0] == a[0] && (a + b)[1..] == a[1..] + b;
      match a[0]
      case Arrive(bytes) => RunInPieces(pending + BitsOf(bytes), a[1..], b);
      case Compaction => RunInPieces(pending, a[1..], b);
      case Pull =>
        var next := if pending == [] then [] else pending[1..];
        var bit := if pending == [] then (true, true) else (pending[0], false);
        RunInPieces(next, a[1..], b);
        var first := Run(next, a[1..]);
        Regroup([bit], first.1, Run(first.0, b).1);
    }
  }

  /** One event. */
  lemma RunOnce(pending: seq<bool>, e: SourceEvent)
    ensures Run(pending, [e]) ==
            match e
            case Arrive(bytes) => (pending + BitsOf(bytes), [])
            case Compaction => (pending, [])
            case Pull => if pending == [] then ([], [(true, true)]) else (pending[1..], [(pending[0], false)])
  {
    hide BitsOf;
    assert [e][1..] == [];
    var bit := if pending == [] then (true, true) else (pending[0], false);
    assert [bit] + [] == [bit];
  }

  /** The same events, except that of every arrival only a prefix was read. */
  predicate Taken(events: seq<SourceEvent>, done: seq<SourceEvent>) {
    && |done| == |events|
    && forall i | 0 <= i < |done| ::
         if events[i].Arrive? then done[i].Arrive? && done[i].bytes <= events[i].bytes else done[i] == events[i]
  }

  /** Any interleaving of socket reads, compactions and pulls on the object itself. What is pulled, with the idle ones
      marked, and what is left pending are those of the run; without the idle ones, the pulled bits followed by the
      pending ones are what was pending and the bytes read, in order. */
  method DriveSource(s: Source, events: seq<SourceEvent>) returns (out: seq<(bool, bool)>, done: seq<SourceEvent>)
    requires s.Valid()
    modifies s, s.q
    ensures s.Valid() && Taken(events, done)
    ensures (s.Pending(), out) == Run(old(s.Pending()), done)
    ensures Data(out) + s.Pending() == old(s.Pending()) + BitsOf(Arrived(done))
  {
    out, done := [], [];
    ghost var p0 := s.Pending();
    assert Run(p0, []) == (p0, []);
    hide BitsOf, Run, Data, Arrived;
    for i := 0 to |events|
      invariant s.Valid() && |done| == i && Taken(events[..i], done)
      invariant (s.Pending(), out) == Run(p0, done)
    {
      ghost var p := s.Pending();
      var one, more := DriveOnce(s, events[i]);
      RunInPieces(p0, done, [one]);
      out, done := out + more, done + [one];
      assert events[..i + 1] == events[..i] + [events[i]];
    }
    assert events[..|events|] == events;
    PipeConserves(p0, done);
  }

  method DriveOnce(s: Source, e: SourceEvent) returns (one: SourceEvent, more: seq<(bool, bool)>)
    requires s.Valid()
    modifies s, s.q
    ensures s.Valid() && (s.Pending(), more) == Run(old(s.Pending()), [one])
    ensures if e.Arrive? then one.Arrive? && one.bytes <= e.bytes else one == e
  {
    hide BitsOf, Run;
    one, more := e, [];
    ghost var p := s.Pending();
    match e {
      case Pull =>
        var idle := s.curBits == 0 && s.rd == s.len;
        var bit := s.GetBit();
        more := [(bit, idle)];
        if p != [] {
          assert ([bit] + s.Pending())[0] == bit && ([bit] + s.Pending())[1..] == s.Pending();
        }
      case Arrive(bytes) =>
        var taken := s.Poll(bytes);
        one := Arrive(bytes[..taken]);
      case Compaction => s.Compact();
    }
    RunOnce(p, one);
  }

  // ---- Byte alignment at the far end ----

  /** The bytes a sink with room makes of a bit stream; up to seven bits stay behind. */
  function Assembled(bits: seq<bool>): (bytes: seq<Byte>)
    decreases |bits|
  {
    if |bits| < 8 then [] else [bits[..8]] + Assembled(bits[8..])
  }

  function Filler(n: nat): (bytes: seq<Byte>)
    ensures |bytes| == n
  {
    seq(n, _ => Ones(8))
  }

  lemma {:induction false} AssembledUndoesBits(bytes: seq<Byte>)
    ensures Assembled(BitsOf(bytes)) == bytes
    decreases |bytes|
  {
    if bytes != [] {
      AssembledUndoesBits(bytes[1..]);
      assert BitsOf(bytes)[..8] == bytes[0] && BitsOf(bytes)[8..] == BitsOf(bytes[1..]);
    }
  }

  /** Whole bytes in front come out first; fewer than eight bits behind them stay behind. */
  lemma {:induction false} AssembledOfBytes(bytes: seq<Byte>, tail: seq<bool>)
    ensures Assembled(BitsOf(bytes) + tail) == bytes + Assembled(tail)
    decreases |bytes|
  {
    if bytes == [] {
      assert BitsOf(bytes) + tail == tail;
      assert bytes + Assembled(tail) == Assembled(tail);
    } else {
      var rest := BitsOf(bytes[1..]);
      AssembledOfBytes(bytes[1..], tail);
      Regroup(bytes[0], rest, tail);
      assert (bytes[0] + (rest + tail))[..8] == bytes[0] && (bytes[0] + (rest + tail))[8..] == rest + tail;
      Regroup([bytes[0]], bytes[1..], Assembled(tail));
      assert [bytes[0]] + bytes[1..] == bytes;
    }
  }

  /** A sink fed bits while it has room collects them in order, and its queue is always the assembly of everything it
      was fed. */
  method DriveSink(s: Sink, bits: seq<bool>)
    requires s.Valid() && 8 * s.len + s.curBits + |bits| < 8 * QUEUE + 8
    modifies s, s.q
    ensures s.Valid() && s.Held() == old(s.Held()) + bits
    ensures s.q[..s.len] == Assembled(old(s.Held()) + bits)
  {
    hide BitsOf, Assembled;
    ghost var h0 := s.Held();
    assert h0 + bits[..0] == h0;
    for i := 0 to |bits|
      invariant s.Valid() && s.Held() == h0 + bits[..i]
    {
      HeldLength(s);
      s.PutBit(bits[i]);
      assert bits[..i + 1] == bits[..i] + [bits[i]];
      Regroup(h0, bits[..i], [bits[i]]);
    }
    assert bits[..|bits|] == bits;
    AssembledOfBytes(s.q[..s.len], s.cur[..s.curBits]);
    assert Assembled(s.cur[..s.curBits]) == [] by { TooFewBits(s.cur[..s.curBits]); }
    assert s.q[..s.len] + [] == s.q[..s.len];
  }

  lemma HeldLength(s: Sink)
    requires s.Valid()
    ensures |s.Held()| == 8 * s.len + s.curBits
  {
    hide BitsOf;
  }

  lemma TooFewBits(bits: seq<bool>)
    requires |bits| < 8
    ensures Assembled(bits) == []
  {
  }

  lemma {:induction false} IdleAssembled(n: nat, bits: seq<bool>)
    ensures Assembled(Ones(n) + bits) == Filler(n / 8) + Assembled(Ones(n % 8) + bits)
    decreases n
  {
    hide Ones, Filler, Assembled;
    if n >= 8 {
      IdleAssembled(n - 8, bits);
      OneIdleByte(n, bits);
      assert (n - 8) / 8 == n / 8 - 1 && (n - 8) % 8 == n % 8;
      Regroup([Ones(8)], Filler(n / 8 - 1), Assembled(Ones(n % 8) + bits));
    } else {
      assert n / 8 == 0 && n % 8 == n;
      assert Filler(0) + Assembled(Ones(n) + bits) == Assembled(Ones(n) + bits);
    }
  }

  lemma OneIdleByte(n: nat, bits: seq<bool>)
    requires n >= 8
    ensures Assembled(Ones(n) + bits) == [Ones(8)] + Assembled(Ones(n - 8) + bits)
    ensures Filler(n / 8) == [Ones(8)] + Filler(n / 8 - 1)
  {
    assert (Ones(n) + bits)[..8] == Ones(8) && (Ones(n) + bits)[8..] == Ones(n - 8) + bits;
  }

  /** There is no framing: after an idle stretch of n ones the far end sees every byte string as sent, behind
      filler bytes, exactly if n is a multiple of eight. */
  lemma AlignedExactly(n: nat)
    ensures (forall bytes: seq<Byte> :: Assembled(Ones(n) + BitsOf(bytes)) == Filler(n / 8) + bytes) <==> n % 8 == 0
  {
    if n % 8 == 0 {
      forall bytes: seq<Byte> ensures Assembled(Ones(n) + BitsOf(bytes)) == Filler(n / 8) + bytes {
        IdleAssembled(n, BitsOf(bytes));
        assert Ones(0) + BitsOf(bytes) == BitsOf(bytes);
        AssembledUndoesBits(bytes);
      }
    } else {
      MisalignedZero(n);
    }
  }

  /** A zero byte after a misaligned idle stretch does not arrive as a zero byte. */
  lemma MisalignedZero(n: nat)
    requires n % 8 != 0
    ensures Assembled(Ones(n) + BitsOf([ZERO])) != Filler(n / 8) + [ZERO]
  {
    var bits := BitsOf([ZERO]);
    IdleAssembled(n, bits);
    var got := Assembled(Ones(n % 8) + bits);
    assert got[0][0];
    assert (Filler(n / 8) + got)[n / 8] == got[0] && (Filler(n / 8) + [ZERO])[n / 8] == ZERO;
    assert !ZERO[0];
  }
}
