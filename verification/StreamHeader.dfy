/** The optional header in front of the TCP sample stream, and the assembly of 16-bit samples from reads of any
    size: what sip_interface writes and both modems read. */
module StreamHeader {
  import opened Sequences

  type Byte = b: int | 0 <= b < 256

  // ---- Writer ----

  datatype Codec = Pcma | G722 | ClearMode

  function CodecRate(codec: Codec): (rate: nat) {
    if codec.G722? then 16000 else 8000
  }

  /** Big-endian digits of an unsigned 32-bit value. */
  function Be32(v: nat): (s: seq<Byte>)
    requires v < 0x1_0000_0000
    ensures |s| == 4
  {
    [v / 0x100_0000, v / 0x1_0000 % 256, v / 256 % 256, v % 256]
  }

  function Be16(v: nat): (s: seq<Byte>)
    requires v < 0x1_0000
    ensures |s| == 2
  {
    [v / 256, v % 256]
  }

  /** The twelve bytes in front of a payload of a given length. */
  function Prefix(codec: Codec, length: nat): (s: seq<Byte>)
    requires length < 0x8000_0000
    ensures |s| == 12
  {
    [0x53, 0x48, 2, 1, if codec.ClearMode? then 3 else 0, 1] + Be16(CodecRate(codec)) + Be32(length)
  }

  /** What a reader of the prefix can tell: the magic, rate and length with the most significant byte first. */
  lemma PrefixFields(codec: Codec, length: nat)
    requires length < 0x8000_0000
    ensures var p: seq<int> := Prefix(codec, length);
            && p[..2] == ['S' as int, 'H' as int] && (p[4] == 3 <==> codec.ClearMode?)
            && p[6] * 256 + p[7] == (if codec == G722 then 16000 else 8000)
            && ((p[8] * 256 + p[9]) * 256 + p[10]) * 256 + p[11] == length
  {
    assert length / 256 == length / 0x1_0000 * 256 + length / 256 % 256;
    assert length / 0x1_0000 == length / 0x100_0000 * 256 + length / 0x1_0000 % 256;
  }

  /** The header goes out from a buffer that is filled field by field. */
  method FillHeader(hdr: array<Byte>, codec: Codec, length: nat)
    requires hdr.Length == 12 && length < 0x8000_0000
    modifies hdr
    ensures hdr[..] == Prefix(codec, length)
  {
    hide Be16, Be32;
    hdr[0] := 'S' as int;
    hdr[1] := 'H' as int;
    hdr[2] := 2;
    hdr[3] := 1;
    hdr[4] := if codec.ClearMode? then 3 else 0;
    hdr[5] := 1;
    assert hdr[..6] == Prefix(codec, length)[..6];
    var rate := Be16(CodecRate(codec));
    hdr[6], hdr[7] := rate[0], rate[1];
    var be := Be32(length);
    hdr[8], hdr[9], hdr[10], hdr[11] := be[0], be[1], be[2], be[3];
  }

  /** tcp_send_stream_header; the payload length is a C int. */
  method SendStreamHeader(codec: Codec, payload: seq<Byte>) returns (wire: seq<Byte>)
    requires |payload| < 0x8000_0000
    ensures wire == Prefix(codec, |payload|) + payload
  {
    var hdr := new Byte[12];
    FillHeader(hdr, codec, |payload|);
    wire := hdr[..];
    if |payload| > 0 { wire := wire + payload; }
  }

  // ---- Reader, byte by byte ----

  /** Progress through the header. line is the first line of the payload, kept for the log. */
  datatype Header = Header(done: bool, reject: bool, prefix: seq<Byte>, remaining: int, line: seq<Byte>, lineDone: bool)

  const START := Header(false, false, [], 0, [], false)

  /** ntohl, then the cast to a signed 32-bit int. */
  function SignedBe32(s: seq<Byte>): (v: int)
    requires |s| == 4
  {
    var b3: int, b2: int, b1: int, b0: int := s[0], s[1], s[2], s[3];
    var u := b3 * 0x100_0000 + b2 * 0x1_0000 + b1 * 256 + b0;
    if u < 0x8000_0000 then u else u - 0x1_0000_0000
  }

  predicate Supported(p: seq<Byte>)
    requires |p| == 12
  {
    p[2] == 2 && p[4] == 0 && (p[6] as int) * 256 + p[7] == 8000 && p[5] == 1
  }

  predicate WellFormed(h: Header) {
    |h.prefix| <= 12 && |h.line| <= 127
  }

  /** The header still wants bytes. */
  predicate Wants(h: Header) {
    !h.done && !h.reject && (|h.prefix| < 12 || h.remaining > 0)
  }

  /** What completing the prefix does. */
  function Parse(h: Header): (h': Header)
    requires |h.prefix| == 12
  {
    if h.prefix[0] != 0x53 || h.prefix[1] != 0x48 then h.(done := true)
    else
      var h1 := h.(remaining := SignedBe32(h.prefix[8..]));
      if !Supported(h.prefix) then h1.(reject := true)
      else h1.(done := h1.remaining == 0)
  }

  /**
   * A reader turns down the streams that carry the magic and differ from what the bridge writes in a PCMA call
   * in version, encoding, channels or rate; the flags do not matter. Streams without the magic pass as raw audio,
   * and with an empty payload the header is over at once.
   */
  lemma RejectedExactly(p: seq<Byte>)
    requires |p| == 12
    ensures var h := Parse(START.(prefix := p));
            var ours := Prefix(Pcma, 0);
            && (h.reject <==> p[..2] == ours[..2] && p[..8][3 := 1] != ours[..8])
            && (h.done <==> p[..2] != ours[..2] || p[3 := 1] == ours)
  {
    var ours := Prefix(Pcma, 0);
    assert ours == [0x53, 0x48, 2, 1, 0, 1, 31, 64, 0, 0, 0, 0];
    assert p[..2] == [p[0], p[1]] && ours[..2] == [0x53, 0x48];
    assert p[..8][3 := 1] == [p[0], p[1], p[2], 1, p[4], p[5], p[6], p[7]];
    assert ours[..8] == [0x53, 0x48, 2, 1, 0, 1, 31, 64];
    RateBytes(p[6], p[7]);
    LengthBytes(p);
  }

  lemma RateBytes(hi: Byte, lo: Byte)
    ensures (hi as int) * 256 + lo == 8000 <==> hi == 31 && lo == 64
  {
  }

  lemma LengthBytes(p: seq<Byte>)
    requires |p| == 12
    ensures SignedBe32(p[8..]) == 0 <==> p[8] == 0 && p[9] == 0 && p[10] == 0 && p[11] == 0
    ensures p[3 := 1] == [p[0], p[1], p[2], 1, p[4], p[5], p[6], p[7], p[8], p[9], p[10], p[11]]
  {
  }

  function Capture(h: Header, b: Byte): (h': Header) {
    if h.lineDone then h
    else if b == 13 || b == 10 then h.(lineDone := |h.line| > 0)
    else if |h.line| < 127 then h.(line := h.line + [b])
    else h
  }

  function HeaderByte(h: Header, b: Byte): (h': Header)
    requires WellFormed(h) && Wants(h)
    ensures WellFormed(h')
  {
    if |h.prefix| < 12 then
      var h1 := h.(prefix := h.prefix + [b]);
      if |h1.prefix| < 12 then h1 else Parse(h1)
    else
      var h1 := Capture(h, b).(remaining := h.remaining - 1);
      h1.(done := h1.remaining == 0)
  }

  // ---- Samples ----

  /** A little-endian signed 16-bit sample. */
  function Sample(lo: Byte, hi: Byte): (v: int)
    ensures -32768 <= v <= 32767
  {
    var u := lo + 256 * hi;
    if u < 32768 then u else u - 65536
  }

  /** Samples travel with their low byte first, as two's complement. */
  lemma SampleBytes(v: int)
    requires -32768 <= v < 32768
    ensures Sample(v % 256, v / 256 % 256) == v
  {
  }

  function SamplesOf(pcm: seq<Byte>): (s: seq<int>)
    ensures 2 * |s| <= |pcm| < 2 * |s| + 2
  {
    if |pcm| < 2 then [] else [Sample(pcm[0], pcm[1])] + SamplesOf(pcm[2..])
  }

  // ---- A session ----

  /** carry holds the first byte of a sample whose second byte has not arrived. */
  datatype Session = Session(h: Header, carry: seq<Byte>) {
    predicate Valid() {
      WellFormed(h) && |carry| <= 1
    }
  }

  /** One byte of the stream: header, or half a sample. A rejected session takes nothing more. */
  function FeedByte(s: Session, b: Byte): (r: (Session, seq<int>))
    requires s.Valid()
    ensures r.0.Valid()
  {
    if Wants(s.h) then (s.(h := HeaderByte(s.h, b)), [])
    else if s.h.reject then (s, [])
    else if |s.carry| == 1 then (s.(carry := []), [Sample(s.carry[0], b)])
    else (s.(carry := [b]), [])
  }

  function Feed(s: Session, bytes: seq<Byte>): (r: (Session, seq<int>))
    requires s.Valid()
    ensures r.0.Valid()
    decreases |bytes|
  {
    if bytes == [] then (s, [])
    else
      var first := FeedByte(s, bytes[0]);
      var rest := Feed(first.0, bytes[1..]);
      (rest.0, first.1 + rest.1)
  }

  lemma {:induction false} FeedInPieces(s: Session, a: seq<Byte>, b: seq<Byte>)
    requires s.Valid()
    ensures var first := Feed(s, a);
            var second := Feed(first.0, b);
            Feed(s, a + b) == (second.0, first.1 + second.1)
    decreases |a|
  {
    hide FeedByte;
    if a == [] {
      assert a + b == b;
      assert [] + Feed(s, b).1 == Feed(s, b).1;
    } else {
      var first := FeedByte(s, a[0]);
      FeedInPieces(first.0, a[1..], b);
      assert (a + b)[1..] == a[1..] + b;
      var mid := Feed(first.0, a[1..]);
      var second := Feed(mid.0, b);
      assert first.1 + (mid.1 + second.1) == (first.1 + mid.1) + second.1;
    }
  }

  /** The stream in reads of any sizes. */
  function Joined(chunks: seq<seq<Byte>>): (s: seq<Byte>) {
    if chunks == [] then [] else chunks[0] + Joined(chunks[1..])
  }

  function FeedReads(s: Session, chunks: seq<seq<Byte>>): (r: (Session, seq<int>))
    requires s.Valid()
    ensures r.0.Valid()
    decreases |chunks|
  {
    if chunks == [] then (s, [])
    else
      var first := Feed(s, chunks[0]);
      var rest := FeedReads(first.0, chunks[1..]);
      (rest.0, first.1 + rest.1)
  }

  /** How the stream is cut into reads makes no difference to the samples. */
  lemma {:induction false} ReadsDoNotMatter(s: Session, chunks: seq<seq<Byte>>)
    requires s.Valid()
    ensures FeedReads(s, chunks) == Feed(s, Joined(chunks))
    decreases |chunks|
  {
    hide Feed;
    if chunks == [] {
      assert Feed(s, []) == (s, []) by { FeedNothing(s); }
    } else {
      ReadsDoNotMatter(Feed(s, chunks[0]).0, chunks[1..]);
      FeedInPieces(s, chunks[0], Joined(chunks[1..]));
    }
  }

  lemma FeedNothing(s: Session)
    requires s.Valid()
    ensures Feed(s, []) == (s, [])
  {
  }

  // ---- Round trip ----

  lemma Be32RoundTrip(v: nat)
    requires v < 0x8000_0000
    ensures SignedBe32(Be32(v)) == v
  {
    var w, x := v / 256, v / 0x1_0000;
    assert v == 256 * w + v % 256 && w == 256 * x + w % 256 && x == 256 * (v / 0x100_0000) + x % 256;
  }

  /** After the twelfth byte the header knows the payload length, unless it has to reject the format. */
  lemma PrefixParsed(codec: Codec, length: nat)
    requires length < 0x8000_0000
    ensures var h := Parse(START.(prefix := Prefix(codec, length)));
            if codec.Pcma? then !h.reject && h.remaining == length && h.done == (length == 0) else h.reject && !h.done
  {
    var p := Prefix(codec, length);
    assert p[8..] == Be32(length);
    Be32RoundTrip(length);
  }

  /** Up to the eleventh byte the prefix is only stored; the twelfth has it parsed. */
  lemma {:induction false} PrefixFed(s: Session, bytes: seq<Byte>)
    requires s.Valid() && !s.h.done && !s.h.reject && |s.h.prefix| < 12 && |s.h.prefix| + |bytes| <= 12
    ensures var h := s.h.(prefix := s.h.prefix + bytes);
            Feed(s, bytes) == (s.(h := if |h.prefix| < 12 then h else Parse(h)), [])
    decreases |bytes|
  {
    hide Parse;
    if bytes == [] {
      assert s.h.prefix + bytes == s.h.prefix;
    } else {
      var s1 := s.(h := s.h.(prefix := s.h.prefix + [bytes[0]]));
      assert s1.h.prefix + bytes[1..] == s.h.prefix + bytes;
      var none: seq<int> := [];
      assert none + none == none;
      if |s1.h.prefix| < 12 {
        PrefixFed(s1, bytes[1..]);
      } else {
        assert bytes[1..] == [] && bytes == [bytes[0]];
        FeedOne(s, bytes[0]);
      }
    }
  }

  lemma FeedOne(s: Session, b: Byte)
    requires s.Valid()
    ensures Feed(s, [b]) == FeedByte(s, b)
  {
    hide FeedByte;
    var first := FeedByte(s, b);
    assert [b][1..] == [];
    assert Feed(first.0, []) == (first.0, []);
    assert first.1 + [] == first.1;
  }

  /** What the payload loop does to the header, the flag that the header is complete aside. */
  function PayloadTaken(h: Header, bytes: seq<Byte>): (h': Header)
    decreases |bytes|
  {
    if bytes == [] then h else PayloadTaken(Capture(h, bytes[0]).(remaining := h.remaining - 1), bytes[1..])
  }

  lemma {:induction false} PayloadTakenOneMore(h: Header, bytes: seq<Byte>, b: Byte)
    ensures var t := PayloadTaken(h, bytes);
            PayloadTaken(h, bytes + [b]) == Capture(t, b).(remaining := t.remaining - 1)
    decreases |bytes|
  {
    hide Capture;
    if bytes != [] {
      PayloadTakenOneMore(Capture(h, bytes[0]).(remaining := h.remaining - 1), bytes[1..], b);
      assert (bytes + [b])[1..] == bytes[1..] + [b];
    } else {
      assert bytes + [b] == [b] && [b][1..] == [];
    }
  }

  lemma {:induction false} PayloadFed(s: Session, bytes: seq<Byte>)
    requires s.Valid() && !s.h.done && !s.h.reject && |s.h.prefix| == 12
    requires s.h.remaining > 0 && |bytes| <= s.h.remaining
    ensures var t := PayloadTaken(s.h, bytes);
            && t.remaining == s.h.remaining - |bytes|
            && Feed(s, bytes) == (s.(h := t.(done := t.remaining == 0)), [])
    decreases |bytes|
  {
    if bytes != [] {
      var h1 := Capture(s.h, bytes[0]).(remaining := s.h.remaining - 1);
      var s1 := FeedByte(s, bytes[0]).0;
      var none: seq<int> := [];
      assert none + none == none;
      if h1.remaining == 0 {
        assert bytes[1..] == [];
        FeedNothing(s1);
      } else {
        assert s1 == s.(h := h1);
        PayloadFed(s1, bytes[1..]);
      }
    }
  }

  /** The payload is swallowed to its last byte. */
  lemma {:induction false} PayloadSwallowed(s: Session, payload: seq<Byte>)
    requires s.Valid() && |s.h.prefix| == 12 && !s.h.reject && s.h.remaining == |payload| && s.h.done == (payload == [])
    ensures var r := Feed(s, payload);
            && r.1 == [] && r.0.carry == s.carry && r.0.h.done && !r.0.h.reject && !Wants(r.0.h)
    decreases |payload|
  {
    if payload != [] {
      PayloadSwallowed(FeedByte(s, payload[0]).0, payload[1..]);
    }
  }

  lemma {:induction false} SamplesDelivered(s: Session, pcm: seq<Byte>)
    requires s.Valid() && !Wants(s.h) && !s.h.reject && s.carry == []
    ensures Feed(s, pcm).1 == SamplesOf(pcm) && Feed(s, pcm).0.h == s.h
    decreases |pcm|
  {
    if |pcm| >= 2 {
      SamplesDelivered(s, pcm[2..]);
      assert Feed(s, pcm) == Feed(s, [pcm[0], pcm[1]] + pcm[2..]) by { assert [pcm[0], pcm[1]] + pcm[2..] == pcm; }
      var mid := s.(carry := [pcm[0]]);
      assert Feed(mid, pcm[1..]) == (Feed(s, pcm[2..]).0, [Sample(pcm[0], pcm[1])] + Feed(s, pcm[2..]).1) by {
        assert pcm[1..][1..] == pcm[2..];
      }
    } else if |pcm| == 1 {
      FeedOne(s, pcm[0]);
      assert pcm == [pcm[0]];
    }
  }

  lemma {:induction false} RejectedStaysSilent(s: Session, bytes: seq<Byte>)
    requires s.Valid() && s.h.reject
    ensures Feed(s, bytes) == (s, [])
    decreases |bytes|
  {
    if bytes != [] {
      RejectedStaysSilent(s, bytes[1..]);
      var none: seq<int> := [];
      assert none + none == none;
    }
  }

  /** Header round trip. For every payload a C int can count, every following PCM and every way of cutting the
      stream into chunks, the reader strips exactly what the writer wrote and delivers the PCM's samples, if the
      call is PCMA; for the other codecs it rejects the stream and delivers nothing. */
  lemma HeaderRoundTrip(codec: Codec, payload: seq<Byte>, pcm: seq<Byte>, chunks: seq<seq<Byte>>)
    requires |payload| < 0x8000_0000 && Joined(chunks) == Prefix(codec, |payload|) + payload + pcm
    ensures var r := FeedReads(Session(START, []), chunks);
            if codec.Pcma? then r.0.h.done && !r.0.h.reject && r.1 == SamplesOf(pcm) else r.0.h.reject && r.1 == []
  {
    hide Feed, Parse, Prefix, SamplesOf, FeedReads;
    var s0 := Session(START, []);
    var p := Prefix(codec, |payload|);
    ReadsDoNotMatter(s0, chunks);
    PrefixFed(s0, p);
    assert [] + p == p;
    PrefixParsed(codec, |payload|);
    var s1 := Feed(s0, p).0;
    FeedInPieces(s0, p + payload, pcm);
    FeedInPieces(s0, p, payload);
    if codec.Pcma? {
      ParseKeepsPrefix(START.(prefix := p));
      PayloadSwallowed(s1, payload);
      SamplesDelivered(Feed(s1, payload).0, pcm);
      assert [] + SamplesOf(pcm) == SamplesOf(pcm);
    } else {
      RejectedStaysSilent(s1, payload);
      RejectedStaysSilent(s1, pcm);
    }
  }

  // ---- The line kept for the log ----

  predicate IsBreak(b: Byte) {
    b == 13 || b == 10
  }

  function UpToBreak(bytes: seq<Byte>): (line: seq<Byte>) {
    if bytes == [] || IsBreak(bytes[0]) then [] else [bytes[0]] + UpToBreak(bytes[1..])
  }

  /** The first line that is not empty. */
  function FirstLine(bytes: seq<Byte>): (line: seq<Byte>) {
    if bytes != [] && IsBreak(bytes[0]) then FirstLine(bytes[1..]) else UpToBreak(bytes)
  }

  function Cut(line: seq<Byte>): (r: seq<Byte>) {
    if |line| <= 127 then line else line[..127]
  }

  lemma CutStays(line: seq<Byte>, rest: seq<Byte>)
    requires |line| <= 127
    ensures Cut(line) == line && (|line| == 127 ==> Cut(line + rest) == line)
  {
  }

  lemma OneByteMore(h: Header, b: Byte)
    requires |h.line| <= 127 && h.line != [] && !h.lineDone
    ensures var h1 := Capture(h, b);
            if IsBreak(b) then h1.line == h.line && h1.lineDone
            else !h1.lineDone && h1.line == if |h.line| < 127 then h.line + [b] else h.line
  {
  }

  lemma {:induction false} RestOfLine(h: Header, bytes: seq<Byte>)
    requires |h.line| <= 127 && (h.lineDone || h.line != [])
    ensures PayloadTaken(h, bytes).line == if h.lineDone then h.line else Cut(h.line + UpToBreak(bytes))
    decreases |bytes|
  {
    CutStays(h.line, UpToBreak(bytes));
    if bytes == [] {
      assert h.line + [] == h.line;
    } else {
      RestOfLine(Capture(h, bytes[0]).(remaining := h.remaining - 1), bytes[1..]);
      if !h.lineDone {
        OneByteMore(h, bytes[0]);
        hide Capture, Cut;
        var rest := UpToBreak(bytes[1..]);
        CutStays(h.line, rest);
        assert h.line + [] == h.line;
        assert h.line + ([bytes[0]] + rest) == (h.line + [bytes[0]]) + rest;
      }
    }
  }

  lemma {:induction false} LineTaken(h: Header, bytes: seq<Byte>)
    requires h.line == [] && !h.lineDone
    ensures PayloadTaken(h, bytes).line == Cut(FirstLine(bytes))
    decreases |bytes|
  {
    if bytes != [] {
      var h1 := Capture(h, bytes[0]).(remaining := h.remaining - 1);
      if IsBreak(bytes[0]) {
        LineTaken(h1, bytes[1..]);
      } else {
        assert h1.line == [bytes[0]];
        RestOfLine(h1, bytes[1..]);
      }
    }
  }

  /** For every payload and every way of cutting the stream, the line kept is the first of the payload that is not
      empty, cut after 127 bytes. */
  lemma RequestLineKept(payload: seq<Byte>, chunks: seq<seq<Byte>>)
    requires |payload| < 0x8000_0000 && Joined(chunks) == Prefix(Pcma, |payload|) + payload
    ensures FeedReads(Session(START, []), chunks).0.h.line == Cut(FirstLine(payload))
  {
    hide Feed, Parse, Prefix, FeedReads, FirstLine, Cut, PayloadTaken;
    var s0, p := Session(START, []), Prefix(Pcma, |payload|);
    ReadsDoNotMatter(s0, chunks);
    PrefixFed(s0, p);
    assert [] + p == p;
    PrefixParsed(Pcma, |payload|);
    var s1 := Feed(s0, p).0;
    FeedInPieces(s0, p, payload);
    ParseKeepsPrefix(START.(prefix := p));
    ParseKeepsLine(START.(prefix := p));
    LineTaken(s1.h, payload);
    if payload == [] {
      FeedNothing(s1);
      NothingTaken(s1.h);
    } else {
      PayloadFed(s1, payload);
    }
  }

  lemma ParseKeepsLine(h: Header)
    requires |h.prefix| == 12
    ensures Parse(h).line == h.line && Parse(h).lineDone == h.lineDone
  {
  }

  lemma NothingTaken(h: Header)
    ensures PayloadTaken(h, []) == h
  {
  }

  /** A stream without the magic is taken for raw audio, but the twelve bytes that were looked at are gone: the
      samples delivered start with the seventh. */
  lemma RawStreamLosesItsHead(stream: seq<Byte>, chunks: seq<seq<Byte>>)
    requires |stream| >= 12 && (stream[0] != 0x53 || stream[1] != 0x48) && Joined(chunks) == stream
    ensures var r := FeedReads(Session(START, []), chunks);
            r.0.h.done && !r.0.h.reject && r.1 == SamplesOf(stream[12..])
  {
    hide Feed, SamplesOf, FeedReads;
    var s0 := Session(START, []);
    ReadsDoNotMatter(s0, chunks);
    var p := stream[..12];
    PrefixFed(s0, p);
    assert [] + p == p && p[0] == stream[0] && p[1] == stream[1];
    assert stream == p + stream[12..];
    FeedInPieces(s0, p, stream[12..]);
    SamplesDelivered(Feed(s0, p).0, stream[12..]);
    assert [] + SamplesOf(stream[12..]) == SamplesOf(stream[12..]);
  }

  lemma ParseKeepsPrefix(h: Header)
    requires |h.prefix| == 12
    ensures Parse(h).prefix == h.prefix && Parse(h).line == h.line
  {
  }

  /** Prefix bytes up to from, then payload bytes up to i. */
  lemma SwallowedFed(s0: Session, s1: Session, buf: seq<Byte>, from: nat, i: nat)
    requires s0.Valid() && s1.Valid() && from <= i <= |buf|
    requires !s1.h.done && !s1.h.reject && |s1.h.prefix| == 12
    requires Feed(s0, buf[..from]) == (s1.(h := s1.h.(done := s1.h.remaining == 0)), [])
    requires i == from || i - from <= s1.h.remaining
    ensures var t := PayloadTaken(s1.h, buf[from..i]);
            Feed(s0, buf[..i]) == (s1.(h := t.(done := t.remaining == 0)), [])
  {
    hide Feed, Capture;
    if s1.h.remaining > 0 {
      assert buf[..i] == buf[..from] + buf[from..i];
      FeedInPieces(s0, buf[..from], buf[from..i]);
      PayloadFed(s1, buf[from..i]);
      assert s1.(h := s1.h.(done := false)) == s1;
      var none: seq<int> := [];
      assert none + none == none;
    } else {
      assert i == from && buf[from..i] == [];
    }
  }

  // ---- The readers as objects ----

  class Reader {
    var hdrDone: bool
    var hdrParsed: bool
    var hdrReject: bool
    var hdrHave: nat
    const hdrBuf: array<Byte>
    var payloadRemaining: int
    const hdrLine: array<Byte>
    var hdrLineLen: nat
    var hdrLineDone: bool
    var stage: seq<Byte>      // in_stage: the carried half sample

    ghost predicate Shaped()
      reads this
    {
      && hdrBuf.Length == 12 && hdrLine.Length == 128 && hdrBuf != hdrLine
      && hdrHave <= 12 && hdrLineLen <= 127 && |stage| <= 1
    }

    ghost predicate Valid()
      reads this
    {
      && Shaped()
      && (hdrParsed ==> hdrHave == 12)
      && (hdrHave == 12 ==> hdrParsed || hdrDone)
      && (hdrParsed && !hdrDone && !hdrReject ==> payloadRemaining != 0)
    }

    ghost function Head(): (h: Header)
      requires Shaped()
      reads this, hdrBuf, hdrLine
      ensures WellFormed(h)
    {
      Header(hdrDone, hdrReject, hdrBuf[..hdrHave], payloadRemaining, hdrLine[..hdrLineLen], hdrLineDone)
    }

    ghost function State(): (s: Session)
      requires Shaped()
      reads this, hdrBuf, hdrLine
      ensures s.Valid()
    {
      Session(Head(), stage)
    }

    constructor ()
      ensures Valid() && fresh(hdrBuf) && fresh(hdrLine) && State() == Session(START, [])
    {
      hdrBuf := new Byte[12];
      hdrLine := new Byte[128];
      hdrDone, hdrParsed, hdrReject, hdrHave := false, false, false, 0;
      payloadRemaining, hdrLineLen, hdrLineDone, stage := 0, 0, false, [];
    }

    method CollectPrefix(buf: seq<Byte>) returns (i: nat)
      requires Shaped()
      modifies this`hdrHave, hdrBuf
      ensures Shaped() && i <= |buf| && hdrHave == old(hdrHave) + i && (i < |buf| ==> hdrHave == 12)
      ensures Head() == old(Head()).(prefix := old(Head()).prefix + buf[..i])
    {
      i := 0;
      while hdrHave < 12 && i < |buf|
        invariant Shaped() && i <= |buf| && hdrHave == old(hdrHave) + i
        invariant hdrBuf[..hdrHave] == old(hdrBuf[..hdrHave]) + buf[..i]
        invariant hdrLine[..] == old(hdrLine[..])
      {
        hdrBuf[hdrHave] := buf[i];
        hdrHave := hdrHave + 1;
        i := i + 1;
      }
    }

    /** Look at a prefix that has just become complete. */
    method ParsePrefix()
      requires Shaped() && hdrHave == 12 && !hdrDone && !hdrReject && !hdrParsed
      modifies this`hdrDone, this`hdrParsed, this`hdrReject, this`payloadRemaining
      ensures Shaped() && hdrParsed == !hdrDone
      ensures if hdrDone || hdrReject then Head() == Parse(old(Head()))
              else Head().(done := payloadRemaining == 0) == Parse(old(Head()))
    {
      if hdrBuf[0] != 0x53 || hdrBuf[1] != 0x48 {
        hdrDone := true;
        return;
      }
      var ver, codec, channels := hdrBuf[2], hdrBuf[4], hdrBuf[5];
      var high: int := hdrBuf[6];
      var rate := high * 256 + hdrBuf[7];
      payloadRemaining := SignedBe32(hdrBuf[8..12]);
      assert hdrBuf[..12][8..] == hdrBuf[8..12];
      hdrParsed := true;
      if ver != 2 || codec != 0 || rate != 8000 || channels != 1 {
        hdrReject := true;
      }
    }

    /** Swallow payload bytes, keeping the first non-empty line. */
    method SwallowPayload(buf: seq<Byte>, start: nat) returns (i: nat)
      requires Shaped() && start <= |buf|
      modifies this`payloadRemaining, this`hdrLineLen, this`hdrLineDone, hdrLine
      ensures Shaped() && start <= i <= |buf|
      ensures Head() == PayloadTaken(old(Head()), buf[start..i])
      ensures i - start <= old(payloadRemaining) || i == start
      ensures i < |buf| ==> payloadRemaining <= 0
    {
      i := start;
      while payloadRemaining > 0 && i < |buf|
        invariant Shaped() && start <= i <= |buf|
        invariant Head() == PayloadTaken(old(Head()), buf[start..i])
        invariant i == start ==> payloadRemaining == old(payloadRemaining)
        invariant i > start ==> payloadRemaining == old(payloadRemaining) - (i - start) >= 0
      {
        PayloadTakenOneMore(old(Head()), buf[start..i], buf[i]);
        assert buf[start..i] + [buf[i]] == buf[start..i + 1];
        Keep(buf[i]);
        i := i + 1;
      }
    }

    method Keep(b: Byte)
      requires Shaped()
      modifies this`payloadRemaining, this`hdrLineLen, this`hdrLineDone, hdrLine
      ensures Shaped() && Head() == Capture(old(Head()), b).(remaining := old(payloadRemaining) - 1)
    {
      payloadRemaining := payloadRemaining - 1;
      if hdrLineDone { return; }
      if b == 13 || b == 10 {
        if hdrLineLen > 0 { hdrLineDone := true; }
      } else if hdrLineLen < hdrLine.Length - 1 {
        hdrLine[hdrLineLen] := b;
        hdrLineLen := hdrLineLen + 1;
      }
    }

    /** consume_header: take header bytes off the front of a read and say where the samples begin. */
    method ConsumeHeader(buf: seq<Byte>) returns (i: nat)
      requires Valid() && !hdrDone && !hdrReject
      modifies this, hdrBuf, hdrLine
      ensures Valid() && i <= |buf|
      ensures (State(), []) == Feed(old(State()), buf[..i])
      ensures i < |buf| ==> !Wants(State().h)
    {
      hide Feed, Parse, PayloadTaken;
      ghost var s0 := State();
      i := CollectPrefix(buf);
      if |s0.h.prefix| < 12 {
        PrefixFed(s0, buf[..i]);
      } else {
        FeedNothing(s0);
        assert buf[..i] == [] && s0.h.prefix + [] == s0.h.prefix;
        assert State() == s0 && s0.h.(done := false) == s0.h;
      }
      if hdrHave < 12 { return; }
      if !hdrParsed {
        ParsePrefix();
        if hdrDone || hdrReject { return; }
      }
      ghost var s1 := State();
      var from := i;
      i := SwallowPayload(buf, from);
      if payloadRemaining == 0 { hdrDone := true; }
      SwallowedFed(s0, s1, buf, from, i);
    }

    /** One read from the audio peer: strip the header, assemble samples, and stage one output sample for each in
        the 640-byte buffer that is flushed at the end. Output samples come from the modulator, here as an
        argument. A read of at most 640 bytes never makes the staging guard drop one; it makes at most 320
        samples. */
    method Read(buf: seq<Byte>, modulated: seq<int>) returns (samples: seq<int>, flushed: seq<int>)
      requires Valid() && !hdrReject && |modulated| >= |buf| + 1
      modifies this, hdrBuf, hdrLine
      ensures Valid() && (State(), samples) == Feed(old(State()), buf)
      ensures 2 * |samples| <= |buf| + 1
      ensures |buf| <= 640 ==> flushed == modulated[..|samples|]
    {
      hide Feed, HeaderByte, Capture, Parse;
      ghost var s0 := State();
      var i := 0;
      FeedNothing(s0);
      assert buf[..0] == [];
      samples, flushed := [], [];
      if !hdrDone {
        i := ConsumeHeader(buf);
        Rest(s0, buf, i);
        if hdrReject {
          RejectedStaysSilent(State(), buf[i..]);
          return;
        }
      } else {
        Rest(s0, buf, i);
      }
      samples, flushed := Assemble(buf, i, modulated);
    }

    method Assemble(buf: seq<Byte>, start: nat, modulated: seq<int>) returns (samples: seq<int>, flushed: seq<int>)
      requires Valid() && start <= |buf| && |modulated| >= |buf| + 1
      requires start < |buf| ==> !Wants(State().h) && !hdrReject
      modifies this`stage
      ensures Valid() && (State(), samples) == Feed(old(State()), buf[start..])
      ensures 2 * |samples| <= |buf| + 1
      ensures |buf| <= 640 ==> flushed == modulated[..|samples|]
    {
      hide Feed, WellFormed, Sample, Wants;
      samples, flushed := [], [];
      var i := start;
      ghost var all := Feed(State(), buf[start..]);
      assert [] + all.1 == all.1;
      while i < |buf|
        invariant start <= i <= |buf| && Valid() && Head() == old(Head())
        invariant all == (Feed(State(), buf[i..]).0, samples + Feed(State(), buf[i..]).1)
        invariant 2 * |samples| + |stage| <= i - start + 1
        invariant |buf| <= 640 ==> flushed == modulated[..|samples|]
      {
        ghost var s, before := State(), samples;
        if |stage| == 1 {
          var sample := Sample(stage[0], buf[i]);
          SecondHalf(s, buf[i..]);
          stage := [];
          i := i + 1;
          samples, flushed := Stage(samples, flushed, sample, modulated);
          Regroup(before, [sample], Feed(State(), buf[i..]).1);
        } else if i + 1 < |buf| {
          var sample := Sample(buf[i], buf[i + 1]);
          WholeSample(s, buf[i..]);
          i := i + 2;
          samples, flushed := Stage(samples, flushed, sample, modulated);
          Regroup(before, [sample], Feed(State(), buf[i..]).1);
        } else {
          FirstHalf(s, buf[i..]);
          stage := [buf[i]];
          i := i + 1;
        }
      }
      FeedNothing(State());
      assert buf[i..] == [] && samples + [] == samples;
    }

    /** process_sample's bookkeeping: the output is dropped if it does not fit the staging buffer. */
    static method Stage(samples: seq<int>, staged: seq<int>, sample: int, modulated: seq<int>)
        returns (samples': seq<int>, staged': seq<int>)
      requires |samples| < |modulated|
      ensures samples' == samples + [sample]
      ensures staged' == if 2 * |staged| + 2 <= 640 then staged + [modulated[|samples|]] else staged
    {
      samples', staged' := samples + [sample], staged;
      if 2 * |staged| + 2 <= 640 {
        staged' := staged + [modulated[|samples|]];
      }
    }
  }

  lemma Rest(s0: Session, buf: seq<Byte>, i: nat)
    requires s0.Valid() && i <= |buf| && Feed(s0, buf[..i]).1 == []
    ensures Feed(s0, buf) == Feed(Feed(s0, buf[..i]).0, buf[i..])
  {
    hide Feed;
    assert buf[..i] + buf[i..] == buf;
    FeedInPieces(s0, buf[..i], buf[i..]);
    var rest := Feed(Feed(s0, buf[..i]).0, buf[i..]).1;
    assert [] + rest == rest;
  }

  lemma SecondHalf(s: Session, bytes: seq<Byte>)
    requires s.Valid() && !Wants(s.h) && !s.h.reject && |s.carry| == 1 && bytes != []
    ensures var rest := Feed(s.(carry := []), bytes[1..]);
            Feed(s, bytes) == (rest.0, [Sample(s.carry[0], bytes[0])] + rest.1)
  {
    hide Sample;
  }

  lemma FirstHalf(s: Session, bytes: seq<Byte>)
    requires s.Valid() && !Wants(s.h) && !s.h.reject && s.carry == [] && bytes != []
    ensures Feed(s, bytes) == Feed(s.(carry := [bytes[0]]), bytes[1..])
  {
    var rest := Feed(s.(carry := [bytes[0]]), bytes[1..]).1;
    assert [] + rest == rest;
  }

  lemma WholeSample(s: Session, bytes: seq<Byte>)
    requires s.Valid() && !Wants(s.h) && !s.h.reject && s.carry == [] && |bytes| >= 2
    ensures var rest := Feed(s, bytes[2..]);
            Feed(s, bytes) == (rest.0, [Sample(bytes[0], bytes[1])] + rest.1)
  {
    hide Feed, Sample;
    FirstHalf(s, bytes);
    SecondHalf(s.(carry := [bytes[0]]), bytes[1..]);
    assert bytes[1..][1..] == bytes[2..] && s.(carry := []) == s;
  }
}
