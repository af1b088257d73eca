/** The bridge from the sample stream to the telephone line: bytes read from TCP wait in a staging buffer, and every
    20 ms one frame of fixed size leaves it, filled up with idle bytes when the buffer runs short. */
module CallBridge {
  import opened G722Band
  import opened G722Codec
  import opened Sequences
  import opened StreamHeader

  const ROOM := 2560

  /** Bytes of the stream that one frame takes. */
  function FrameBytes(codec: StreamHeader.Codec): (n: nat)
    ensures n % 2 == 0 && 0 < n <= 640
  {
    match codec
    case Pcma => 320
    case G722 => 640
    case ClearMode => 160
  }

  function Idle(codec: StreamHeader.Codec): (b: Byte) {
    if codec.ClearMode? then 255 else 0
  }

  /** How many bytes of a queue of this length the next frame takes. */
  function Take(codec: StreamHeader.Codec, len: nat): (n: nat)
    ensures n <= len && n <= FrameBytes(codec)
  {
    if len < FrameBytes(codec) then len else FrameBytes(codec)
  }

  // ---- What goes out ----

  /** A byte of a frame; pad marks those that did not come from the stream. */
  datatype Mark = Mark(value: Byte, pad: bool)

  function Values(sent: seq<Mark>): (bytes: seq<Byte>)
    ensures |bytes| == |sent| && forall i | 0 <= i < |sent| :: bytes[i] == sent[i].value
  {
    seq(|sent|, i requires 0 <= i < |sent| => sent[i].value)
  }

  /** The bytes of the stream among those sent. */
  function Data(sent: seq<Mark>): (bytes: seq<Byte>) {
    if sent == [] then [] else (if sent[0].pad then [] else [sent[0].value]) + Data(sent[1..])
  }

  function Frame(codec: StreamHeader.Codec, q: seq<Byte>): (frame: seq<Mark>)
    ensures |frame| == FrameBytes(codec)
    ensures forall i | 0 <= i < |frame| ::
              frame[i] == if i < Take(codec, |q|) then Mark(q[i], false) else Mark(Idle(codec), true)
  {
    var take := Take(codec, |q|);
    seq(FrameBytes(codec), i requires 0 <= i < FrameBytes(codec) =>
      if i < take then Mark(q[i], false) else Mark(Idle(codec), true))
  }

  /** Bytes of the stream for one unit of the line's clock: a 16-bit sample, or an octet of a clear-mode call. */
  function UnitBytes(codec: StreamHeader.Codec): (n: nat) {
    if codec.ClearMode? then 1 else 2
  }

  /** A frame is 20 ms at the codec's rate, and fills a payload of 160 octets: 64 kbit/s in every codec. */
  lemma FrameIsTwentyMs(codec: StreamHeader.Codec)
    ensures 1000 * FrameBytes(codec) == 20 * StreamHeader.CodecRate(codec) * UnitBytes(codec)
    ensures FrameBytes(codec) == 160 * (match codec case Pcma => 2 case G722 => 4 case ClearMode => 1)
  {
  }

  /** What an empty buffer puts on the line: silence in the sample codecs, octets of eight ones in clear mode. */
  lemma EmptyFrame(codec: StreamHeader.Codec)
    ensures forall i | 0 <= i < FrameBytes(codec) ::
              Frame(codec, [])[i] == Mark(if codec.ClearMode? then 255 else 0, true)
    ensures !codec.ClearMode? ==> Sample(Idle(codec), Idle(codec)) == 0
  {
  }

  class Staging {
    const codec: StreamHeader.Codec
    const buf: array<Byte>
    var len: nat

    ghost predicate Valid()
      reads this
    {
      buf.Length == ROOM && len <= ROOM
    }

    constructor (c: StreamHeader.Codec)
      ensures Valid() && fresh(buf) && codec == c && len == 0
    {
      codec := c;
      buf := new Byte[ROOM](_ => 0);
      len := 0;
    }

    /** A read when the socket has bytes. It is skipped only while the buffer is full, and no byte is ever dropped:
        what does not fit stays with the peer. */
    method Poll(available: seq<Byte>) returns (taken: nat)
      requires Valid()
      modifies this`len, buf
      ensures Valid() && taken <= |available|
      ensures taken == |available| || len == ROOM
      ensures buf[..len] == old(buf[..len]) + available[..taken]
    {
      taken := 0;
      var room := ROOM - len;
      if room > 0 {
        taken := if |available| < room then |available| else room;
        for i := 0 to taken
          invariant len == old(len)
          invariant buf[..len + i] == old(buf[..len]) + available[..i]
        {
          buf[len + i] := available[i];
        }
        len := len + taken;
      } else {
        assert available[..0] == [];
      }
    }

    /** The 20 ms tick. After it the buffer always has room again, so a waiting peer is read at once. */
    method Tick() returns (frame: seq<Byte>)
      requires Valid()
      modifies this`len, buf
      ensures Valid() && len < ROOM
      ensures frame == Values(Frame(codec, old(buf[..len])))
      ensures buf[..len] == old(buf[..len])[Take(codec, old(len))..]
    {
      var want := FrameBytes(codec);
      var take := if len < want then len else want;
      frame := buf[..take];
      while |frame| < want
        invariant take <= |frame| <= want && frame == buf[..take] + seq(|frame| - take, _ => Idle(codec))
      {
        frame := frame + [Idle(codec)];
      }
      assert frame == Values(Frame(codec, buf[..len]));
      for i := 0 to len - take
        invariant forall k | 0 <= k < i :: buf[k] == old(buf[take + k])
        invariant forall k | i <= k < ROOM :: buf[k] == old(buf[k])
        invariant len == old(len)
      {
        buf[i] := buf[take + i];
      }
      len := len - take;
    }
  }

  // ---- Whole calls ----

  datatype Event = Arrive(bytes: seq<Byte>) | Tick20ms

  /** What is left in the queue and everything sent. The queue stands for the staging buffer; DriveStaging shows that
      the object does the same. */
  function Run(codec: StreamHeader.Codec, q: seq<Byte>, events: seq<Event>): (r: (seq<Byte>, seq<Mark>))
    decreases |events|
  {
    if events == [] then (q, [])
    else match events[0]
      case Arrive(bytes) => Run(codec, q + bytes, events[1..])
      case Tick20ms =>
        var rest := Run(codec, q[Take(codec, |q|)..], events[1..]);
        (rest.0, Frame(codec, q) + rest.1)
  }

  function Arrived(events: seq<Event>): (bytes: seq<Byte>) {
    if events == [] then []
    else (if events[0].Arrive? then events[0].bytes else []) + Arrived(events[1..])
  }

  lemma {:induction false} DataJoins(a: seq<Mark>, b: seq<Mark>)
    ensures Data(a + b) == Data(a) + Data(b)
    decreases |a|
  {
    if a == [] {
      assert a + b == b;
    } else {
      DataJoins(a[1..], b);
      assert (a + b)[0] == a[0] && (a + b)[1..] == a[1..] + b;
      Regroup(if a[0].pad then [] else [a[0].value], Data(a[1..]), Data(b));
    }
  }

  lemma {:induction false} AllPads(sent: seq<Mark>)
    requires forall i | 0 <= i < |sent| :: sent[i].pad
    ensures Data(sent) == []
    decreases |sent|
  {
    if sent != [] {
      AllPads(sent[1..]);
    }
  }

  lemma {:induction false} AllData(sent: seq<Mark>)
    requires forall i | 0 <= i < |sent| :: !sent[i].pad
    ensures Data(sent) == Values(sent)
    decreases |sent|
  {
    if sent != [] {
      AllData(sent[1..]);
      assert Values(sent) == [sent[0].value] + Values(sent[1..]);
    }
  }

  lemma FrameData(codec: StreamHeader.Codec, q: seq<Byte>)
    ensures Data(Frame(codec, q)) == q[..Take(codec, |q|)]
  {
    hide Data;
    var frame, take := Frame(codec, q), Take(codec, |q|);
    AllData(frame[..take]);
    AllPads(frame[take..]);
    DataJoins(frame[..take], frame[take..]);
    assert frame[..take] + frame[take..] == frame;
    assert Values(frame[..take]) == q[..take];
  }

  /** Conservation: the bytes of the stream leave in the order they arrived, each exactly once. */
  lemma {:induction false} StreamConserved(codec: StreamHeader.Codec, q: seq<Byte>, events: seq<Event>)
    ensures var (left, sent) := Run(codec, q, events);
            Data(sent) + left == q + Arrived(events)
    decreases |events|
  {
    hide Data, Frame, Take;
    if events == [] {
      assert Data([]) == [] by { AllPads([]); }
      assert [] + q == q + [];
    } else {
      var later := Arrived(events[1..]);
      match events[0]
      case Arrive(bytes) =>
        StreamConserved(codec, q + bytes, events[1..]);
        Regroup(q, bytes, later);
      case Tick20ms =>
        var take := Take(codec, |q|);
        StreamConserved(codec, q[take..], events[1..]);
        var (left, sent) := Run(codec, q[take..], events[1..]);
        FrameData(codec, q);
        DataJoins(Frame(codec, q), sent);
        Regroup(q[..take], Data(sent), left);
        Regroup(q[..take], q[take..], later);
        assert q[..take] + q[take..] == q;
        assert [] + later == later;
    }
  }

  // ---- The same runs on the staging object ----

  lemma {:induction false} RunInPieces(codec: StreamHeader.Codec, q: seq<Byte>, a: seq<Event>, b: seq<Event>)
    ensures var first := Run(codec, q, a);
            var second := Run(codec, first.0, b);
            Run(codec, q, a + b) == (second.0, first.1 + second.1)
    decreases |a|
  {
    hide Frame, Take;
    if a == [] {
      assert a + b == b;
      assert [] + Run(codec, q, b).1 == Run(codec, q, b).1;
    } else {
      assert (a + b)[0] == a[0] && (a + b)[1..] == a[1..] + b;
      match a[0]
      case Arrive(bytes) => RunInPieces(codec, q + bytes, a[1..], b);
      case Tick20ms =>
        var rest := q[Take(codec, |q|)..];
        RunInPieces(codec, rest, a[1..], b);
        var first := Run(codec, rest, a[1..]);
        Regroup(Frame(codec, q), first.1, Run(codec, first.0, b).1);
    }
  }

  /** One event. */
  lemma RunOnce(codec: StreamHeader.Codec, q: seq<Byte>, e: Event)
    ensures Run(codec, q, [e]) ==
            match e
            case Arrive(bytes) => (q + bytes, [])
            case Tick20ms => (q[Take(codec, |q|)..], Frame(codec, q))
  {
    hide Frame, Take;
    assert [e][1..] == [];
    assert Frame(codec, q) + [] == Frame(codec, q);
  }

  /** The same events, except that of every arrival only a prefix was read. */
  predicate Taken(events: seq<Event>, done: seq<Event>) {
    && |done| == |events|
    && forall i | 0 <= i < |done| ::
         if events[i].Arrive? then done[i].Arrive? && done[i].bytes <= events[i].bytes else done[i] == events[i]
  }

  lemma ValuesJoin(a: seq<Mark>, b: seq<Mark>)
    ensures Values(a + b) == Values(a) + Values(b)
  {
  }

  /** Any arrivals and ticks on the object itself: the bytes sent and the bytes still staged are those of the run over
      what was read, of which nothing is lost. */
  method DriveStaging(s: Staging, events: seq<Event>) returns (sent: seq<Byte>, done: seq<Event>)
    requires s.Valid()
    modifies s, s.buf
    ensures s.Valid() && Taken(events, done)
    ensures var run := Run(s.codec, old(s.buf[..s.len]), done);
            && s.buf[..s.len] == run.0 && sent == Values(run.1)
            && Data(run.1) + s.buf[..s.len] == old(s.buf[..s.len]) + Arrived(done)
  {
    sent, done := [], [];
    ghost var q0 := s.buf[..s.len];
    assert Run(s.codec, q0, []).0 == q0 && Values(Run(s.codec, q0, []).1) == [];
    hide Run, Data, Arrived, Values, Frame, Take;
    for i := 0 to |events|
      invariant s.Valid() && |done| == i && Taken(events[..i], done)
      invariant s.buf[..s.len] == Run(s.codec, q0, done).0 && sent == Values(Run(s.codec, q0, done).1)
    {
      ghost var q := s.buf[..s.len];
      var one, more := DriveOnce(s, events[i]);
      RunInPieces(s.codec, q0, done, [one]);
      ValuesJoin(Run(s.codec, q0, done).1, Run(s.codec, q, [one]).1);
      sent, done := sent + more, done + [one];
      assert events[..i + 1] == events[..i] + [events[i]];
    }
    assert events[..|events|] == events;
    StreamConserved(s.codec, q0, done);
  }

  method DriveOnce(s: Staging, e: Event) returns (one: Event, sent: seq<Byte>)
    requires s.Valid()
    modifies s`len, s.buf
    ensures s.Valid() && (if e.Arrive? then one.Arrive? && one.bytes <= e.bytes else one == e)
    ensures var run := Run(s.codec, old(s.buf[..s.len]), [one]);
            s.buf[..s.len] == run.0 && sent == Values(run.1)
  {
    assert Values([]) == [];
    hide Run, Values, Frame, Take;
    ghost var q := s.buf[..s.len];
    one, sent := e, [];
    match e {
      case Arrive(bytes) =>
        var taken := s.Poll(bytes);
        one := Arrive(bytes[..taken]);
      case Tick20ms => sent := s.Tick();
    }
    RunOnce(s.codec, q, one);
  }

  // ---- Sample alignment ----

  /** Both bytes of every sample sent come from the stream, or both are idle bytes. */
  ghost predicate Whole(sent: seq<Mark>) {
    forall k: nat | 2 * k + 1 < |sent| :: sent[2 * k].pad == sent[2 * k + 1].pad
  }

  /** At every tick the buffer holds a whole frame or an even number of bytes. */
  predicate EvenAtTicks(codec: StreamHeader.Codec, q: seq<Byte>, events: seq<Event>)
    decreases |events|
  {
    events == [] ||
    match events[0]
    case Arrive(bytes) => EvenAtTicks(codec, q + bytes, events[1..])
    case Tick20ms =>
      (|q| >= FrameBytes(codec) || |q| % 2 == 0) && EvenAtTicks(codec, q[Take(codec, |q|)..], events[1..])
  }

  lemma WholeJoins(a: seq<Mark>, b: seq<Mark>, pairs: nat)
    requires |a| == 2 * pairs
    ensures Whole(a + b) <==> Whole(a) && Whole(b)
  {
    var c := a + b;
    if Whole(c) {
      forall k: nat | 2 * k + 1 < |a| ensures a[2 * k].pad == a[2 * k + 1].pad {
        assert c[2 * k].pad == c[2 * k + 1].pad;
      }
      forall k: nat | 2 * k + 1 < |b| ensures b[2 * k].pad == b[2 * k + 1].pad {
        assert c[2 * (k + pairs)].pad == c[2 * (k + pairs) + 1].pad;
      }
    }
    if Whole(a) && Whole(b) {
      forall k: nat | 2 * k + 1 < |c| ensures c[2 * k].pad == c[2 * k + 1].pad {
        if k < pairs {
          assert a[2 * k].pad == a[2 * k + 1].pad;
        } else {
          assert b[2 * (k - pairs)].pad == b[2 * (k - pairs) + 1].pad;
        }
      }
    }
  }

  lemma FrameWhole(codec: StreamHeader.Codec, q: seq<Byte>)
    ensures Whole(Frame(codec, q)) <==> |q| >= FrameBytes(codec) || |q| % 2 == 0
  {
    var frame, take := Frame(codec, q), Take(codec, |q|);
    if take % 2 == 1 {
      var k := take / 2;
      assert frame[2 * k].pad != frame[2 * k + 1].pad;
    }
  }

  /** In the two sample codecs two bytes make a sample: none is ever torn apart exactly if at every tick the buffer
      holds a whole frame or an even number of bytes, whatever the bytes are. In clear mode the stream is octets, each
      whole by itself, and all that this says is where the padding goes. */
  lemma {:induction false} WholeExactly(codec: StreamHeader.Codec, q: seq<Byte>, events: seq<Event>)
    ensures Whole(Run(codec, q, events).1) <==> EvenAtTicks(codec, q, events)
    decreases |events|
  {
    assert Whole([]);
    hide Frame, Take, Whole;
    if events != [] {
      match events[0]
      case Arrive(bytes) => WholeExactly(codec, q + bytes, events[1..]);
      case Tick20ms =>
        var rest := q[Take(codec, |q|)..];
        WholeExactly(codec, rest, events[1..]);
        FrameWhole(codec, q);
        WholeJoins(Frame(codec, q), Run(codec, rest, events[1..]).1, FrameBytes(codec) / 2);
    }
  }

  /** The samples sent that are not idle. */
  function Voice(sent: seq<Mark>): (samples: seq<int>) {
    if |sent| < 2 then []
    else (if sent[0].pad then [] else [Sample(sent[0].value, sent[1].value)]) + Voice(sent[2..])
  }

  lemma {:induction false} WholeMeansSamples(sent: seq<Mark>)
    requires Whole(sent) && |sent| % 2 == 0
    ensures Voice(sent) == SamplesOf(Data(sent))
    decreases |sent|
  {
    assert SamplesOf(Data([])) == [];
    hide Sample, Whole, Data, SamplesOf;
    if sent != [] {
      var rest := sent[2..];
      WholeFurther(sent);
      WholeMeansSamples(rest);
      TwoMarks(sent);
      assert sent[0].pad ==> [] + Voice(rest) == Voice(rest);
    }
  }

  lemma WholeFurther(sent: seq<Mark>)
    requires Whole(sent) && |sent| >= 2
    ensures sent[0].pad == sent[1].pad && Whole(sent[2..])
  {
    var rest := sent[2..];
    assert sent[2 * 0].pad == sent[2 * 0 + 1].pad;
    forall k: nat | 2 * k + 1 < |rest| ensures rest[2 * k].pad == rest[2 * k + 1].pad {
      assert sent[2 * (k + 1)].pad == sent[2 * (k + 1) + 1].pad;
    }
  }

  lemma TwoMarks(sent: seq<Mark>)
    requires |sent| >= 2 && sent[0].pad == sent[1].pad
    ensures sent[0].pad ==> Data(sent) == Data(sent[2..])
    ensures !sent[0].pad ==>
              SamplesOf(Data(sent)) == [Sample(sent[0].value, sent[1].value)] + SamplesOf(Data(sent[2..]))
  {
    hide Sample;
    assert Data(sent[1..]) == (if sent[1].pad then [] else [sent[1].value]) + Data(sent[1..][1..]);
    assert sent[1..][1..] == sent[2..];
    if sent[0].pad {
      assert [] + Data(sent[2..]) == Data(sent[2..]);
    } else {
      assert Data(sent)[2..] == Data(sent[2..]);
    }
  }

  lemma {:induction false} SentInPairs(codec: StreamHeader.Codec, q: seq<Byte>, events: seq<Event>)
    ensures |Run(codec, q, events).1| % 2 == 0
    decreases |events|
  {
    hide Frame, Take;
    if events != [] {
      match events[0]
      case Arrive(bytes) => SentInPairs(codec, q + bytes, events[1..]);
      case Tick20ms => SentInPairs(codec, q[Take(codec, |q|)..], events[1..]);
    }
  }

  /** When no tick finds an odd remainder, the line carries exactly the stream's samples in order, with idle
      samples in between. Clear mode has no samples; its octets are conserved without any condition by
      StreamConserved. */
  lemma AudioIntact(codec: StreamHeader.Codec, events: seq<Event>)
    requires EvenAtTicks(codec, [], events)
    ensures var (left, sent) := Run(codec, [], events);
            Voice(sent) == SamplesOf(Data(sent)) && Data(sent) + left == Arrived(events)
  {
    hide Run, Data, Voice, EvenAtTicks, Whole;
    WholeExactly(codec, [], events);
    SentInPairs(codec, [], events);
    WholeMeansSamples(Run(codec, [], events).1);
    StreamConserved(codec, [], events);
    assert [] + Arrived(events) == Arrived(events);
  }

  /** One odd remainder tears samples: a constant signal whose first byte meets a tick alone puts a value on the
      line that is neither in the signal nor idle. */
  lemma OddRemainderTears()
    ensures var b: Byte := 1;
            var sent := Run(Pcma, [], [Arrive([b]), Tick20ms, Arrive(seq(321, _ => b)), Tick20ms]).1;
            && !Whole(sent) && |sent| == 640
            && Sample(sent[0].value, sent[1].value) == 1 && Sample(1, 1) == 257
  {
    var b: Byte := 1;
    var later := [Arrive(seq(321, _ => b)), Tick20ms];
    var events := [Arrive([b]), Tick20ms] + later;
    assert events == [Arrive([b]), Tick20ms, Arrive(seq(321, _ => b)), Tick20ms];
    assert events[1..] == [Tick20ms] + later && events[1..][1..] == later;
    assert [] + [b] == [b];
    var rest := Run(Pcma, [b][1..], later).1;
    var last: seq<Event> := [Tick20ms];
    assert later[1..] == last && last[1..] == [];
    var tail := Run(Pcma, [b][1..] + later[0].bytes, last).1;
    assert |tail| == 320 && rest == tail;
    assert Run(Pcma, [], events).1 == Frame(Pcma, [b]) + rest;
    var sent := Run(Pcma, [], events).1;
    assert sent[2 * 0].pad != sent[2 * 0 + 1].pad;
  }

  // ---- One encoding per call ----

  lemma {:induction false} SamplesAreInt16(bytes: seq<Byte>)
    ensures AllInt16(SamplesOf(bytes))
    decreases |bytes|
  {
    if |bytes| >= 2 {
      SamplesAreInt16(bytes[2..]);
    }
  }

  lemma {:induction false} SamplesJoin(a: seq<Byte>, b: seq<Byte>, pairs: nat)
    requires |a| == 2 * pairs
    ensures SamplesOf(a + b) == SamplesOf(a) + SamplesOf(b) && |SamplesOf(a)| == pairs
    decreases |a|
  {
    hide Sample;
    if a == [] {
      assert a + b == b;
    } else {
      SamplesJoin(a[2..], b, pairs - 1);
      assert (a + b)[0] == a[0] && (a + b)[1] == a[1] && (a + b)[2..] == a[2..] + b;
      Regroup([Sample(a[0], a[1])], SamplesOf(a[2..]), SamplesOf(b));
    }
  }

  /** The octets a G.722 call sends, one encoder call per tick. */
  function Payloads(st: CodecState, q: seq<Byte>, events: seq<Event>): (r: (CodecState, seq<int>))
    requires Ready(st)
    decreases |events|
  {
    hide Ready, EncodeRun;
    if events == [] then (st, [])
    else match events[0]
      case Arrive(bytes) => Payloads(st, q + bytes, events[1..])
      case Tick20ms =>
        var pcm := SamplesOf(Values(Frame(StreamHeader.G722, q)));
        SamplesAreInt16(Values(Frame(StreamHeader.G722, q)));
        var (st1, octets) := EncodeRun(st, pcm);
        var (st2, more) := Payloads(st1, q[Take(StreamHeader.G722, |q|)..], events[1..]);
        (st2, octets + more)
  }

  /** Cutting a call into ticks does not show in the encoding: the octets of all frames are one encoding of
      everything sent. */
  lemma {:induction false} OneEncoding(st: CodecState, q: seq<Byte>, events: seq<Event>)
    requires Ready(st)
    ensures var pcm := SamplesOf(Values(Run(StreamHeader.G722, q, events).1));
            AllInt16(pcm) && Payloads(st, q, events) == EncodeRun(st, pcm)
    decreases |events|
  {
    hide Ready, EncodeRun, Frame, Take, Values, SamplesOf;
    if events == [] {
      NothingEncoded(st);
    } else {
      match events[0]
      case Arrive(bytes) => OneEncoding(st, q + bytes, events[1..]);
      case Tick20ms =>
        var frame, rest := Frame(StreamHeader.G722, q), q[Take(StreamHeader.G722, |q|)..];
        var more := Run(StreamHeader.G722, rest, events[1..]).1;
        assert Values(frame + more) == Values(frame) + Values(more);
        SamplesJoin(Values(frame), Values(more), 320);
        SamplesAreInt16(Values(frame));
        SamplesAreInt16(Values(more));
        var pcm := SamplesOf(Values(frame));
        OneEncoding(EncodeRun(st, pcm).0, rest, events[1..]);
        EncodeInBlocks(st, pcm, SamplesOf(Values(more)), 160);
    }
  }

  lemma NothingEncoded(st: CodecState)
    requires Ready(st)
    ensures SamplesOf(Values([])) == [] && EncodeRun(st, []) == (st, [])
  {
  }

  /** So a far end that decodes the payloads of a G.722 call in order, from the first on, is in the encoder's band
      state after the last one. */
  lemma FarEndInStep(events: seq<Event>)
    ensures var (st, octets) := Payloads(ResetState(), [], events);
            Octets(octets) && SameBands(st, DecodeRun(ResetState(), octets).0)
  {
    hide Ready, EncodeRun, DecodeRun, ResetState, Payloads, SamplesOf;
    OneEncoding(ResetState(), [], events);
    var pcm := SamplesOf(Values(Run(StreamHeader.G722, [], events).1));
    Lockstep(ResetState(), ResetState(), pcm, EncodeRun(ResetState(), pcm).1);
  }
}
