/** The asynchronous start-stop framers of the FSK modem and their Q16 bit clocks.
    The line is abstracted to one level per sample, true for mark. */
module FskFramer {
  import opened ByteBits

  datatype Parity = NoParity | Even | Odd

  datatype Framing = Framing(dataBits: nat, parity: Parity, stopBits: nat) {
    predicate Valid() {
      5 <= dataBits <= 8 && 1 <= stopBits <= 2
    }

    function ParityBits(): (n: nat) {
      if parity.NoParity? then 0 else 1
    }

    /** The cell after start, data and parity, if any. */
    function FirstStop(): (c: nat) {
      1 + dataBits + ParityBits()
    }

    /** Cells of a frame: start, data, parity if any, stop. */
    function Cells(): (n: nat) {
      FirstStop() + stopBits
    }
  }

  const FULL := 0x10000   // one bit period
  const HALF := 0x8000

  /** Only the data bits of a byte travel. */
  function Masked(fr: Framing, b: Byte): (r: Byte)
    requires fr.Valid()
    ensures forall k | 0 <= k < 8 :: r[k] == (k < fr.dataBits && b[k])
  {
    seq(8, k requires 0 <= k < 8 => k < fr.dataBits && b[k])
  }

  /** Is the number of ones among the first n bits odd? */
  function OddOnes(b: Byte, n: nat): (odd: bool)
    requires n <= 8
  {
    if n == 0 then false else OddOnes(b, n - 1) != b[n - 1]
  }

  /** Even parity makes the total number of ones even, odd parity makes it odd. */
  function ParityOf(fr: Framing, b: Byte): (bit: bool)
    requires fr.Valid()
  {
    match fr.parity
    case NoParity => false
    case Even => OddOnes(b, fr.dataBits)
    case Odd => !OddOnes(b, fr.dataBits)
  }

  function Count(b: Byte, n: nat): (ones: nat)
    requires n <= 8
  {
    if n == 0 then 0 else Count(b, n - 1) + if b[n - 1] then 1 else 0
  }

  lemma {:induction false} OddOnesCounts(b: Byte, n: nat)
    requires n <= 8
    ensures OddOnes(b, n) == (Count(b, n) % 2 == 1)
  {
    if n > 0 {
      OddOnesCounts(b, n - 1);
    }
  }

  method ComputeParityBit(b: Byte, fr: Framing) returns (bit: bool)
    requires fr.Valid()
    ensures bit == ParityOf(fr, b)
  {
    if fr.parity.NoParity? { return false; }
    var ones := 0;
    for i := 0 to fr.dataBits
      invariant ones == Count(b, i)
    {
      if b[i] { ones := ones + 1; }
    }
    OddOnesCounts(b, fr.dataBits);
    var even := ones % 2 == 0;
    bit := if fr.parity.Even? then !even else even;
  }

  // ---- Bit clock ----

  /** Advance a bit clock; the flag says that a bit period has been completed. */
  function BitTick(phase: nat, inc: nat): (r: (nat, bool))
    requires phase < FULL && inc < FULL
    ensures r.0 < FULL && phase + inc == r.0 + (if r.1 then FULL else 0)
  {
    if phase + inc >= FULL then (phase + inc - FULL, true) else (phase + inc, false)
  }

  // ---- Transmitter ----

  datatype TxStage = TxIdle | TxStart | TxData | TxParity | TxStop

  datatype TxState = TxState(fr: Framing, inc: nat, phase: nat, stage: TxStage, bitIndex: nat, stopIndex: nat,
                             cur: Byte, parityBit: bool, level: bool)

  /** Begin a frame with the next byte of the queue, or stay on mark. */
  function StartFrame(t: TxState, buf: seq<Byte>): (r: (TxState, seq<Byte>))
    requires t.fr.Valid()
  {
    if buf == [] then (t.(level := true), buf)
    else
      (t.(cur := buf[0], parityBit := ParityOf(t.fr, buf[0]), stage := TxStart, bitIndex := 0, level := false),
       buf[1..])
  }

  /** One step of the framer, on every rollover of the bit clock. */
  function TxAdvance(t: TxState, buf: seq<Byte>): (r: (TxState, seq<Byte>))
    requires t.fr.Valid()
  {
    match t.stage
    case TxIdle => StartFrame(t, buf)
    case TxStart => (t.(stage := TxData, bitIndex := 0, level := t.cur[0]), buf)
    case TxData =>
      if t.bitIndex + 1 < t.fr.dataBits then (t.(bitIndex := t.bitIndex + 1, level := t.cur[t.bitIndex + 1]), buf)
      else if !t.fr.parity.NoParity? then (t.(bitIndex := t.bitIndex + 1, stage := TxParity, level := t.parityBit), buf)
      else (t.(bitIndex := t.bitIndex + 1, stage := TxStop, stopIndex := 0, level := true), buf)
    case TxParity => (t.(stage := TxStop, stopIndex := 0, level := true), buf)
    case TxStop =>
      if t.stopIndex + 1 < t.fr.stopBits then (t.(stopIndex := t.stopIndex + 1, level := true), buf)
      else StartFrame(t.(stopIndex := t.stopIndex + 1, stage := TxIdle), buf)
  }

  /** What happens after a sample with level t.level has gone out. */
  function TxSample(t: TxState, buf: seq<Byte>): (r: (TxState, seq<Byte>))
    requires t.fr.Valid() && t.phase < FULL && t.inc < FULL
  {
    var tick := BitTick(t.phase, t.inc);
    var t1 := t.(phase := tick.0);
    if tick.1 then TxAdvance(t1, buf) else (t1, buf)
  }

  // ---- Receiver ----

  datatype RxStage = RxIdleMark | RxStartValidate | RxData | RxParity | RxStop

  datatype RxState = RxState(fr: Framing, inc: nat, phase: nat, stage: RxStage, bitIndex: nat, stopIndex: nat,
                             shift: Byte, parityAcc: bool)

  /** fsk_rx_sample's result: nothing yet (-1), a byte, or a framing or parity error (-2). */
  datatype Report = Nothing | Got(byte: Byte) | Error

  /** What the framer does when its bit clock rolls over with this level on the line. */
  function RxAdvance(r: RxState, level: bool): (res: (RxState, Report))
    requires r.fr.Valid() && (r.stage.RxData? ==> r.bitIndex < 8)
  {
    match r.stage
    case RxIdleMark => (r, Nothing)
    case RxStartValidate =>
      (if level then r.(stage := RxIdleMark)
       else r.(stage := RxData, bitIndex := 0, shift := ZERO, parityAcc := false), Nothing)
    case RxData =>
      var r1 := r.(shift := r.shift[r.bitIndex := r.shift[r.bitIndex] || level],
                   parityAcc := r.parityAcc != level, bitIndex := r.bitIndex + 1);
      (if r1.bitIndex < r.fr.dataBits then r1
       else if !r.fr.parity.NoParity? then r1.(stage := RxParity)
       else r1.(stage := RxStop, stopIndex := 0), Nothing)
    case RxParity =>
      var wanted := if r.fr.parity.Even? then r.parityAcc else !r.parityAcc;
      if level != wanted then (r.(stage := RxIdleMark), Error)
      else (r.(stage := RxStop, stopIndex := 0), Nothing)
    case RxStop =>
      if !level then (r.(stage := RxIdleMark), Error)
      else if r.stopIndex + 1 >= r.fr.stopBits then
        (r.(stopIndex := r.stopIndex + 1, stage := RxIdleMark), Got(r.shift))
      else (r.(stopIndex := r.stopIndex + 1), Nothing)
  }

  predicate RxRanges(r: RxState)
    ensures RxRanges(r) ==> r.fr.Valid() && r.phase < FULL && 0 < r.inc < FULL
  {
    && r.fr.Valid() && r.phase < FULL && 0 < r.inc < FULL
    && (r.stage.RxData? ==> r.bitIndex < r.fr.dataBits)
    && (r.stage.RxStop? ==> r.stopIndex < r.fr.stopBits)
    && (r.stage.RxParity? ==> !r.fr.parity.NoParity?)
  }

  /** One received sample. */
  function RxSample(r: RxState, level: bool): (res: (RxState, Report))
    requires RxRanges(r)
    ensures RxRanges(res.0) && res.0.fr == r.fr && res.0.inc == r.inc
  {
    if r.stage.RxIdleMark? then
      (if level then r else r.(stage := RxStartValidate, phase := HALF), Nothing)
    else
      var tick := BitTick(r.phase, r.inc);
      var r1 := r.(phase := tick.0);
      if tick.1 then RxAdvance(r1, level) else (r1, Nothing)
  }

  // ---- The framers as objects ----

  class Modulator {
    var t: TxState

    /** Pull one byte off the front of the buffer, moving the rest down. */
    method PullByte(buf: array<Byte>, len: nat) returns (got: bool, len': nat)
      requires len <= buf.Length
      modifies this`t, buf
      ensures got == (len > 0)
      ensures if len == 0 then len' == 0 && t == old(t) && buf[..] == old(buf[..])
              else len' == len - 1 && t == old(t).(cur := old(buf[0])) && buf[..len'] == old(buf[1..len])
    {
      if len <= 0 { return false, 0; }
      t := t.(cur := buf[0]);
      for i := 0 to len - 1
        invariant forall k | 0 <= k < i :: buf[k] == old(buf[k + 1])
        invariant forall k | i <= k < buf.Length :: buf[k] == old(buf[k])
        invariant t == old(t).(cur := old(buf[0]))
      {
        buf[i] := buf[i + 1];
      }
      return true, len - 1;
    }

    method Start(buf: array<Byte>, len: nat) returns (len': nat)
      requires len <= buf.Length && t.fr.Valid()
      modifies this`t, buf
      ensures len' <= len && (t, buf[..len']) == StartFrame(old(t), old(buf[..len]))
    {
      var got;
      got, len' := PullByte(buf, len);
      if got {
        var parity := ComputeParityBit(t.cur, t.fr);
        t := t.(parityBit := parity, stage := TxStart, bitIndex := 0, level := false);
      } else {
        t := t.(level := true);
      }
    }

    method Advance(buf: array<Byte>, len: nat) returns (len': nat)
      requires len <= buf.Length && t.fr.Valid()
      modifies this`t, buf
      ensures len' <= len && (t, buf[..len']) == TxAdvance(old(t), old(buf[..len]))
    {
      hide ParityOf, StartFrame;
      len' := len;
      match t.stage {
        case TxIdle => len' := Start(buf, len);
        case TxStart => t := t.(stage := TxData, bitIndex := 0, level := t.cur[0]);
        case TxData =>
          t := t.(bitIndex := t.bitIndex + 1);
          if t.bitIndex < t.fr.dataBits {
            t := t.(level := t.cur[t.bitIndex]);
          } else if !t.fr.parity.NoParity? {
            t := t.(stage := TxParity, level := t.parityBit);
          } else {
            t := t.(stage := TxStop, stopIndex := 0, level := true);
          }
        case TxParity => t := t.(stage := TxStop, stopIndex := 0, level := true);
        case TxStop =>
          t := t.(stopIndex := t.stopIndex + 1);
          if t.stopIndex < t.fr.stopBits {
            t := t.(level := true);
          } else {
            t := t.(stage := TxIdle);
            len' := Start(buf, len);
          }
      }
    }

    /** The clock part of fsk_tx_sample; returns the level the sample goes out with. */
    method Sample(buf: array<Byte>, len: nat) returns (level: bool, len': nat)
      requires len <= buf.Length && t.fr.Valid() && t.phase < FULL && t.inc < FULL
      modifies this`t, buf
      ensures level == old(t.level)
      ensures len' <= len && (t, buf[..len']) == TxSample(old(t), old(buf[..len]))
    {
      hide TxAdvance;
      level, len' := t.level, len;
      var bp := t.phase + t.inc;
      if bp >= FULL {
        t := t.(phase := bp - FULL);
        len' := Advance(buf, len);
      } else {
        t := t.(phase := bp);
      }
    }
  }

  class Demodulator {
    var r: RxState

    /** The framer switch of fsk_rx_sample for a sensed level. */
    method Sample(level: bool) returns (report: Report)
      requires RxRanges(r)
      modifies this`r
      ensures (r, report) == RxSample(old(r), level)
    {
      report := Nothing;
      match r.stage {
        case RxIdleMark =>
          if !level { r := r.(stage := RxStartValidate, phase := HALF); }
        case RxStartValidate =>
          var rolled := Tick();
          if rolled {
            if level {
              r := r.(stage := RxIdleMark);
            } else {
              r := r.(stage := RxData, bitIndex := 0, shift := ZERO, parityAcc := false);
            }
          }
        case RxData =>
          var rolled := Tick();
          if rolled {
            r := r.(shift := r.shift[r.bitIndex := r.shift[r.bitIndex] || level]);
            r := r.(parityAcc := r.parityAcc != level);
            r := r.(bitIndex := r.bitIndex + 1);
            if r.bitIndex >= r.fr.dataBits {
              if !r.fr.parity.NoParity? {
                r := r.(stage := RxParity);
              } else {
                r := r.(stage := RxStop, stopIndex := 0);
              }
            }
          }
        case RxParity =>
          var rolled := Tick();
          if rolled {
            var wanted := if r.fr.parity.Even? then r.parityAcc else !r.parityAcc;
            if level != wanted {
              r := r.(stage := RxIdleMark);
              report := Error;
            } else {
              r := r.(stage := RxStop, stopIndex := 0);
            }
          }
        case RxStop =>
          var rolled := Tick();
          if rolled {
            if !level {
              r := r.(stage := RxIdleMark);
              report := Error;
            } else {
              r := r.(stopIndex := r.stopIndex + 1);
              if r.stopIndex >= r.fr.stopBits {
                report := Got(r.shift);
                r := r.(stage := RxIdleMark);
              }
            }
          }
      }
    }

    /** bit_tick on the receiver's clock. */
    method Tick() returns (rolled: bool)
      requires r.phase < FULL && r.inc < FULL
      modifies this`r
      ensures r == old(r).(phase := BitTick(old(r).phase, old(r).inc).0)
      ensures rolled == BitTick(old(r).phase, old(r).inc).1
    {
      var bp := r.phase + r.inc;
      rolled := bp >= FULL;
      r := r.(phase := if rolled then bp - FULL else bp);
    }
  }
}
