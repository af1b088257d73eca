/** The clock tolerance of the FSK framers, exactly: bit-clock increments that do not fit lose a byte. */
module FskTolerance {
  import opened ByteBits
  import opened FskFramer
  import opened FskRoundTrip
  import opened Sequences

  // ---- The levels of a transmitter whose queue gets nothing more ----

  function NoArrivals(n: nat): (arrivals: seq<seq<Byte>>)
    ensures |arrivals| == n
  {
    seq(n, _ => [])
  }

  lemma {:induction false} NothingArrives(n: nat)
    ensures Flatten(NoArrivals(n)) == []
  {
    if n > 0 {
      NothingArrives(n - 1);
      assert NoArrivals(n)[0] == [] && NoArrivals(n)[1..] == NoArrivals(n - 1);
    }
  }

  function FrameTime(fr: Framing): (time: nat) {
    FULL * fr.Cells()
  }

  /** The level at a time from the start of a frame for bytes[0], with the other bytes sent right behind it. */
  function LevelAfter(fr: Framing, bytes: seq<Byte>, pos: nat): (level: bool)
    requires fr.Valid()
    decreases |bytes|
  {
    if bytes == [] then true
    else if pos < FrameTime(fr) then CellLevel(fr, bytes[0], pos / FULL)
    else LevelAfter(fr, bytes[1..], pos - FrameTime(fr))
  }

  function OnTheLine(t: TxState, buf: seq<Byte>): (bytes: seq<Byte>) {
    if InTxFrame(t) then [t.cur] + buf else []
  }

  /** In a frame, or idle with nothing left to send. */
  predicate Draining(t: TxState, buf: seq<Byte>)
    ensures Draining(t, buf) ==> TxOk(t)
  {
    TxOk(t) && (t.stage.TxIdle? ==> buf == [])
  }

  lemma LevelNow(t: TxState, buf: seq<Byte>)
    requires Draining(t, buf)
    ensures t.level == LevelAfter(t.fr, OnTheLine(t, buf), TxPos(t))
  {
    hide CellLevel;
    if InTxFrame(t) {
      assert TxPos(t) / FULL == TxCell(t) < t.fr.Cells();
    }
  }

  /** One sample takes the frame further, or to the next one, or ends the last one. */
  lemma DrainStep(t: TxState, buf: seq<Byte>)
    requires Draining(t, buf)
    ensures var (t', buf') := TxSample(t, buf);
            && Draining(t', buf') && t'.fr == t.fr && t'.inc == t.inc && Pulled(t, buf) + buf' == buf
            && var frame := FrameTime(t.fr);
               if InTxFrame(t) && TxPos(t) + t.inc < frame then
                 OnTheLine(t', buf') == OnTheLine(t, buf) && TxPos(t') == TxPos(t) + t.inc
               else if InTxFrame(t) then
                 OnTheLine(t', buf') == buf && (buf != [] ==> TxPos(t') == TxPos(t) + t.inc - frame)
               else
                 OnTheLine(t', buf') == []
  {
    PullsFromTheFront(t, buf);
    hide TxAdvance, CellLevel, ParityOf, Pulled;
    var tick := BitTick(t.phase, t.inc);
    if tick.1 {
      TxAdvances(t.(phase := tick.0), buf);
    }
  }

  lemma TransmitOnce(t: TxState, buf: seq<Byte>, n: nat)
    requires TxOk(t)
    ensures TxOk(TxSample(t, buf).0)
    ensures var step := TxSample(t, buf);
            var rest := Transmit(step.0, step.1, NoArrivals(n));
            Transmit(t, buf, NoArrivals(n + 1))
            == Sent(rest.t, rest.buf, [t.level] + rest.levels, Pulled(t, buf) + rest.pulled)
  {
    hide TxOk, TxSample, Pulled;
    TxMovesOn(t, buf);
    assert NoArrivals(n + 1)[0] == [] && NoArrivals(n + 1)[1..] == NoArrivals(n) && buf + [] == buf;
  }

  lemma LevelsGoOn(t: TxState, buf: seq<Byte>, d: nat)
    requires Draining(t, buf)
    ensures var (t', buf') := TxSample(t, buf);
            && Draining(t', buf') && t'.fr == t.fr && t'.inc == t.inc
            && LevelAfter(t.fr, OnTheLine(t', buf'), TxPos(t') + d)
               == LevelAfter(t.fr, OnTheLine(t, buf), TxPos(t) + t.inc + d)
  {
    hide CellLevel, TxSample, Draining, TxPos, Pulled;
    DrainStep(t, buf);
    if InTxFrame(t) && TxPos(t) + t.inc >= FrameTime(t.fr) {
      assert ([t.cur] + buf)[1..] == buf;
    }
  }

  /** The level of sample j, a time d from now. */
  lemma {:induction false} LevelsOf(t: TxState, buf: seq<Byte>, n: nat, j: nat, d: nat)
    requires Draining(t, buf) && j < n && d == j * t.inc
    ensures var s := Transmit(t, buf, NoArrivals(n));
            |s.levels| == n && s.levels[j] == LevelAfter(t.fr, OnTheLine(t, buf), TxPos(t) + d)
    decreases n
  {
    hide TxOk, TxSample, Pulled, Draining, LevelAfter, OnTheLine, TxPos, InTxFrame, Transmit;
    var step := TxSample(t, buf);
    HowMany(t, buf, n);
    TransmitOnce(t, buf, n - 1);
    if j == 0 {
      LevelNow(t, buf);
    } else {
      LessOne(j, t.inc, d);
      LevelsGoOn(t, buf, d - t.inc);
      LevelsOf(step.0, step.1, n - 1, j - 1, d - t.inc);
    }
  }

  lemma LessOne(j: nat, inc: nat, d: nat)
    requires j > 0 && d == j * inc
    ensures d >= inc && d - inc == (j - 1) * inc
  {
  }

  lemma {:induction false} HowMany(t: TxState, buf: seq<Byte>, n: nat)
    requires TxOk(t)
    ensures |Transmit(t, buf, NoArrivals(n)).levels| == n
    decreases n
  {
    hide TxOk, TxSample, Pulled;
    if n > 0 {
      TransmitOnce(t, buf, n - 1);
      HowMany(TxSample(t, buf).0, TxSample(t, buf).1, n - 1);
    }
  }

  lemma TransmitNothing(t: TxState, buf: seq<Byte>)
    requires Draining(t, buf)
    ensures Transmit(t, buf, NoArrivals(0)) == Sent(t, buf, [], []) && (!InTxFrame(t) ==> buf == [])
  {
  }

  lemma Unfinished(t: TxState, more: nat)
    requires TxOk(t) && InTxFrame(t)
    ensures TxPos(t) < FrameTime(t.fr) <= (1 + more) * FrameTime(t.fr)
  {
    hide CellLevel;
    Monotone(1, 1 + more, FrameTime(t.fr));
  }

  /** Its end: once the frames are over everything has been sent. */
  lemma {:induction false} Drains(t: TxState, buf: seq<Byte>, n: nat)
    requires Draining(t, buf) && (InTxFrame(t) ==> TxPos(t) + n * t.inc >= (1 + |buf|) * FrameTime(t.fr))
    ensures var s := Transmit(t, buf, NoArrivals(n)); s.t.stage.TxIdle? && s.pulled == buf && s.buf == []
    decreases n
  {
    hide TxOk, TxSample, Pulled, TxPos, CellLevel, Transmit, FrameTime, Draining;
    DrainStep(t, buf);
    if InTxFrame(t) {
      Unfinished(t, |buf|);
    }
    if n == 0 {
      TransmitNothing(t, buf);
    } else {
      var step := TxSample(t, buf);
      TransmitOnce(t, buf, n - 1);
      OneMore(n - 1, t.inc);
      OneMore(|buf|, FrameTime(t.fr));
      Drains(step.0, step.1, n - 1);
    }
  }

  // ---- A receiver that has seen the right levels so far ----

  lemma ReceiveOnce(r: RxState, levels: seq<bool>)
    requires RxRanges(r) && levels != []
    ensures var step := RxSample(r, levels[0]);
            var rest := Receive(step.0, levels[1..]);
            Receive(r, levels) == (rest.0, Reported(step.1) + rest.1)
  {
  }

  /** In the frame for b, about to take sample j of it. */
  predicate OnTime(r: RxState, b: Byte, j: nat)
    ensures OnTime(r, b, j) ==> RxRanges(r) && !r.stage.RxIdleMark?
  {
    RxRanges(r) && !r.stage.RxIdleMark? && Collected(r, b) && j >= 1 && RxPos(r) == HALF + (j - 1) * r.inc
  }

  /** The levels from sample j on as far as the rollover for cell c; the rollovers before it see what they should. */
  predicate RightUpTo(fr: Framing, rxInc: nat, b: Byte, levels: seq<bool>, j: nat, c: nat)
    requires fr.Valid() && rxInc > 0
  {
    && j + |levels| > Roll(c, rxInc)
    && forall k | 0 <= k < c && j <= Roll(k, rxInc) < j + |levels| ::
         levels[Roll(k, rxInc) - j] == CellLevel(fr, b, k)
  }

  lemma RollsOver(r: RxState, b: Byte, j: nat, c: nat)
    requires OnTime(r, b, j) && j <= Roll(c, r.inc) && c < r.fr.Cells()
    ensures Sampled(r) <= c
    ensures j == Roll(c, r.inc) ==> Sampled(r) == c && r.phase + r.inc >= FULL
    ensures r.phase + r.inc >= FULL ==> j == Roll(Sampled(r), r.inc)
    ensures j < Roll(c, r.inc) ==> RxPos(r) + r.inc < FULL * r.fr.Cells()
  {
    hide Roll, Collected, RxRanges, Sampled;
    RollBounds(c, r.inc);
    Monotone(j - 1, Roll(c, r.inc) - 1, r.inc);
    OneMore(j - 1, r.inc);
    OneMore(Roll(c, r.inc) - 1, r.inc);
    if j < Roll(c, r.inc) {
      Monotone(j, Roll(c, r.inc) - 1, r.inc);
    }
    if r.phase + r.inc >= FULL {
      RollIs(Sampled(r), r.inc, j);
    }
  }

  lemma OneRight(r: RxState, b: Byte, j: nat, c: nat, level: bool)
    requires OnTime(r, b, j) && j < Roll(c, r.inc) && c < r.fr.Cells()
    requires r.phase + r.inc >= FULL ==> level == CellLevel(r.fr, b, Sampled(r))
    ensures RxSample(r, level).1 == Nothing && OnTime(RxSample(r, level).0, b, j + 1)
  {
    hide Roll, RxSample, Collected, RxRanges, CellLevel, Sampled, RxPos, Masked;
    RollsOver(r, b, j, c);
    RxMovesOn(r, b, level);
    OneMore(j - 1, r.inc);
  }

  /** It gets to the rollover for cell c with nothing reported. */
  lemma {:induction false} GetsTo(r: RxState, b: Byte, levels: seq<bool>, j: nat, c: nat) returns (r': RxState, n: nat)
    requires OnTime(r, b, j) && j <= Roll(c, r.inc) && c < r.fr.Cells()
    requires RightUpTo(r.fr, r.inc, b, levels, j, c)
    ensures n == Roll(c, r.inc) - j < |levels|
    ensures OnTime(r', b, j + n) && r'.fr == r.fr && r'.inc == r.inc
    ensures Sampled(r') == c && r'.phase + r'.inc >= FULL
    ensures Receive(r, levels) == Receive(r', levels[n..])
    decreases Roll(c, r.inc) - j
  {
    hide Roll, Receive, RxSample, Collected, CellLevel, Sampled, RxPos, OnTime;
    RollsOver(r, b, j, c);
    n := Roll(c, r.inc) - j;
    if n == 0 {
      r' := r;
      assert levels[0..] == levels;
    } else {
      OneRight(r, b, j, c, levels[0]);
      var next := RxSample(r, levels[0]).0;
      ReceiveOnce(r, levels);
      var m;
      r', m := GetsTo(next, b, levels[1..], j + 1, c);
      assert Reported(Nothing) + Receive(next, levels[1..]).1 == Receive(next, levels[1..]).1;
      assert levels[1..][m..] == levels[n..];
    }
  }

  // ---- A wrong level is never made good ----

  /** The first thing reported, if any, is not this byte. */
  predicate Off(reports: seq<Report>, m: Byte) {
    reports == [] || reports[0] != Got(m)
  }

  /** Bit k has been taken in wrong. */
  predicate Spoiled(r: RxState, b: Byte, k: nat)
    ensures Spoiled(r, b, k) ==> RxRanges(r)
  {
    && RxRanges(r) && k < r.fr.dataBits && r.shift[k] != b[k]
    && ((r.stage.RxData? && k < r.bitIndex) || r.stage.RxParity? || r.stage.RxStop?)
  }

  lemma StaysSpoiled(r: RxState, b: Byte, k: nat, level: bool)
    requires Spoiled(r, b, k)
    ensures var (r', report) := RxSample(r, level);
            if report == Nothing then Spoiled(r', b, k) else report != Got(Masked(r.fr, b))
  {
    hide BitTick;
    assert Masked(r.fr, b)[k] == b[k];
  }

  /** A wrong bit stays wrong, whatever comes on the line. */
  lemma {:induction false} SpoiledForGood(r: RxState, b: Byte, k: nat, levels: seq<bool>)
    requires Spoiled(r, b, k)
    ensures Off(Receive(r, levels).1, Masked(r.fr, b))
    decreases |levels|
  {
    hide RxSample, Spoiled, Masked;
    if levels != [] {
      StaysSpoiled(r, b, k, levels[0]);
      var (r', report) := RxSample(r, levels[0]);
      if report == Nothing {
        SpoiledForGood(r', b, k, levels[1..]);
      }
    }
  }

  /** A wrong data bit spoils the byte, a wrong parity or stop bit is an error. */
  lemma SeesWrong(r: RxState, b: Byte, level: bool)
    requires RxRanges(r) && Collected(r, b) && Sampled(r) > 0 && r.phase + r.inc >= FULL
    requires level != CellLevel(r.fr, b, Sampled(r))
    ensures var (r', report) := RxSample(r, level);
            report == Error || (report == Nothing && Spoiled(r', b, r.bitIndex))
  {
    hide Masked, OddOnes;
  }

  lemma GoesWrong(r: RxState, b: Byte, levels: seq<bool>, c: nat)
    requires RxRanges(r) && r.stage.RxIdleMark? && 0 < c < r.fr.Cells()
    requires |levels| > Roll(c, r.inc) >= 1 && !levels[0] && RightUpTo(r.fr, r.inc, b, levels[1..], 1, c)
    requires levels[Roll(c, r.inc)] != CellLevel(r.fr, b, c)
    ensures Off(Receive(r, levels).1, Masked(r.fr, b))
  {
    hide Roll, Receive, CellLevel, Masked, RightUpTo;
    ReceiveOnce(r, levels);
    assert OnTime(RxSample(r, false).0, b, 1);
    hide RxSample, Spoiled, OnTime, RxRanges;
    var r', n := GetsTo(RxSample(r, false).0, b, levels[1..], 1, c);
    var rest := levels[1..][n..];
    assert rest[0] == levels[Roll(c, r.inc)];
    SeesWrong(r', b, rest[0]);
    ReceiveOnce(r', rest);
    var step := RxSample(r', rest[0]);
    if step.1 == Nothing {
      SpoiledForGood(step.0, b, r'.bitIndex, rest[1..]);
    }
  }

  /** A start cell read as mark: the receiver is idle again and takes the rest for what it looks like. */
  lemma MissesTheStart(r: RxState, levels: seq<bool>) returns (r': RxState)
    requires RxRanges(r) && r.stage.RxIdleMark?
    requires |levels| > Roll(0, r.inc) >= 1 && !levels[0] && levels[Roll(0, r.inc)]
    ensures RxRanges(r') && r'.stage.RxIdleMark? && r'.fr == r.fr && r'.inc == r.inc
    ensures Receive(r, levels).1 == Receive(r', levels[Roll(0, r.inc) + 1..]).1
  {
    hide Roll, Receive;
    ReceiveOnce(r, levels);
    var late, n := GetsTo(RxSample(r, false).0, ZERO, levels[1..], 1, 0);
    var rest := levels[1..][n..];
    ReceiveOnce(late, rest);
    r' := RxSample(late, true).0;
    assert rest[1..] == levels[Roll(0, r.inc) + 1..];
  }

  // ---- One stretch of space in the mark ----

  predicate AllMark(levels: seq<bool>) {
    forall i | 0 <= i < |levels| :: levels[i]
  }

  /** Space and then mark. */
  predicate Rising(levels: seq<bool>) {
    forall i, k | 0 <= i < k < |levels| :: levels[i] ==> levels[k]
  }

  /** Mark, space and then mark. */
  predicate OneDip(levels: seq<bool>) {
    forall i, j, k | 0 <= i < j < k < |levels| :: !levels[i] && levels[j] ==> levels[k]
  }

  /** A receiver in the data bits takes in ones from now on, and so no byte with a zero at the end. */
  lemma {:induction false} NoByteInMark(r: RxState, b: Byte, levels: seq<bool>)
    requires RxRanges(r) && (r.stage.RxIdleMark? || r.stage.RxStartValidate? || r.stage.RxData?)
    requires AllMark(levels) && !b[r.fr.dataBits - 1]
    ensures Off(Receive(r, levels).1, Masked(r.fr, b))
    decreases |levels|
  {
    hide Masked, BitTick;
    if levels != [] {
      ReceiveOnce(r, levels);
      var r' := RxSample(r, true).0;
      if r'.stage.RxParity? || r'.stage.RxStop? {
        SpoiledForGood(r', b, r.bitIndex, levels[1..]);
      } else {
        NoByteInMark(r', b, levels[1..]);
      }
    }
  }

  /** A receiver at the start bit either takes in a zero first, or is out of the dip. */
  lemma {:induction false} NoByteAfterSpace(r: RxState, b: Byte, levels: seq<bool>)
    requires RxRanges(r) && Collected(r, b) && (r.stage.RxStartValidate? || (r.stage.RxData? && r.bitIndex == 0))
    requires Rising(levels) && b[0] && !b[r.fr.dataBits - 1]
    ensures Off(Receive(r, levels).1, Masked(r.fr, b))
    decreases |levels|
  {
    hide Masked, BitTick;
    if levels == [] {
    } else if levels[0] {
      NoByteInMark(r, b, levels);
    } else {
      ReceiveOnce(r, levels);
      var r' := RxSample(r, false).0;
      if r.stage.RxData? && r' != r.(phase := r'.phase) {
        SpoiledForGood(r', b, 0, levels[1..]);
      } else {
        NoByteAfterSpace(r', b, levels[1..]);
      }
    }
  }

  lemma {:induction false} NoByteInDip(r: RxState, b: Byte, levels: seq<bool>)
    requires RxRanges(r) && r.stage.RxIdleMark?
    requires OneDip(levels) && b[0] && !b[r.fr.dataBits - 1]
    ensures Off(Receive(r, levels).1, Masked(r.fr, b))
    decreases |levels|
  {
    hide Masked;
    if levels != [] {
      ReceiveOnce(r, levels);
      if levels[0] {
        NoByteInDip(r, b, levels[1..]);
      } else {
        NoByteAfterSpace(RxSample(r, false).0, b, levels[1..]);
      }
    }
  }

  // ---- The first cell that does not fit ----

  predicate FitsBefore(fr: Framing, txInc: nat, rxInc: nat, c: nat)
    requires 0 < rxInc
  {
    forall k: nat | k < c :: CellFits(fr, txInc, rxInc, k)
  }

  lemma FirstMisfit(fr: Framing, txInc: nat, rxInc: nat) returns (c: nat)
    requires 0 < txInc && 0 < rxInc && !Fits(fr, txInc, rxInc)
    ensures c < fr.Cells() && FitsBefore(fr, txInc, rxInc, c) && !CellFits(fr, txInc, rxInc, c)
  {
    hide CellFits;
    c := 0;
    while c < fr.Cells() && CellFits(fr, txInc, rxInc, c)
      invariant c <= fr.Cells() && FitsBefore(fr, txInc, rxInc, c)
    {
      c := c + 1;
    }
  }

  /** If it is sampled too early, even without a start residue, then in the cell before. */
  lemma EarlyByOne(fr: Framing, txInc: nat, rxInc: nat, c: nat)
    requires 0 < txInc && 0 < rxInc && FitsBefore(fr, txInc, rxInc, c)
    requires Roll(c, rxInc) * txInc < FULL * Begins(fr, c)
    ensures 0 < c <= fr.FirstStop() && CellSeen(c, 0, txInc, rxInc) == c - 1
  {
    hide Roll;
    if c > 0 {
      assert CellFits(fr, txInc, rxInc, c - 1);
      RollGrows(c - 1, c, rxInc);
      Monotone(Roll(c - 1, rxInc), Roll(c, rxInc), txInc);
    }
  }

  lemma RollSteps(c: nat, rxInc: nat)
    requires 0 < c && 0 < rxInc
    ensures Roll(c, rxInc) <= Roll(c - 1, rxInc) + 2 * Roll(0, rxInc)
  {
    hide Roll;
    var n, m := Roll(c, rxInc), Roll(c - 1, rxInc) + 2 * Roll(0, rxInc);
    RollBounds(c, rxInc);
    RollBounds(c - 1, rxInc);
    RollBounds(0, rxInc);
    assert m * rxInc == Roll(c - 1, rxInc) * rxInc + 2 * (Roll(0, rxInc) * rxInc);
    if n > m {
      Monotone(m + 1, n, rxInc);
      OneMore(m, rxInc);
    }
  }

  lemma StepsAdd(n: nat, before: nat, half: nat, txInc: nat, end: nat)
    requires txInc > 0 && n <= before + 2 * half
    requires (n + 1) * txInc > end && (before + 1) * txInc <= end && (half + 1) * txInc <= FULL
    ensures end <= txInc - 1 + n * txInc < end + 2 * FULL
  {
    Monotone(n, before + 2 * half, txInc);
    assert (before + 2 * half) * txInc == before * txInc + 2 * (half * txInc);
    OneMore(n, txInc);
    OneMore(before, txInc);
    OneMore(half, txInc);
  }

  /** If a stop cell is sampled too late, then in the first two cells behind the frame. */
  lemma LateByTwo(fr: Framing, txInc: nat, rxInc: nat, c: nat)
    requires fr.Valid() && 0 < txInc && 0 < rxInc && FitsBefore(fr, txInc, rxInc, c)
    requires fr.FirstStop() <= c < fr.Cells() && (Roll(c, rxInc) + 1) * txInc > FULL * fr.Cells()
    ensures fr.Cells() <= CellSeen(c, txInc - 1, txInc, rxInc) <= fr.Cells() + 1
  {
    hide Roll;
    assert CellFits(fr, txInc, rxInc, c - 1) && CellFits(fr, txInc, rxInc, 0);
    RollSteps(c, rxInc);
    StepsAdd(Roll(c, rxInc), Roll(c - 1, rxInc), Roll(0, rxInc), txInc, FULL * fr.Cells());
  }

  // ---- Bytes that tell cells apart ----

  /** Only bit k is one. */
  function Only(k: nat): (b: Byte) {
    seq(8, i => i == k)
  }

  /** Bit k is one and the parity bit, if any, a zero. */
  function Clear(fr: Framing, k: nat): (b: Byte) {
    if fr.parity.Even? then seq(8, i => i == k || i == (if k == 0 then 1 else 0)) else Only(k)
  }

  lemma {:induction false} OnesOfOnly(k: nat, n: nat)
    requires n <= 8
    ensures OddOnes(Only(k), n) == (k < n)
  {
    if n > 0 {
      OnesOfOnly(k, n - 1);
    }
  }

  lemma {:induction false} OnesOfPair(k: nat, l: nat, b: Byte, n: nat)
    requires n <= 8 && k != l && forall i | 0 <= i < 8 :: b[i] == (i == k || i == l)
    ensures OddOnes(b, n) == ((k < n) != (l < n))
  {
    if n > 0 {
      OnesOfPair(k, l, b, n - 1);
    }
  }

  lemma ClearIsClear(fr: Framing, k: nat)
    requires fr.Valid() && k < fr.dataBits
    ensures Clear(fr, k)[k] && !ParityOf(fr, Clear(fr, k))
  {
    OnesOfOnly(k, fr.dataBits);
    if fr.parity.Even? {
      OnesOfPair(k, if k == 0 then 1 else 0, Clear(fr, k), fr.dataBits);
    }
  }

  /** A byte whose frame has different levels in cell c and in the cell seen instead. */
  function Telling(fr: Framing, c: nat, seen: nat): (b: Byte)
    requires fr.Valid()
  {
    if 0 < c <= fr.dataBits then
      (if seen <= fr.dataBits then Only(c - 1) else if seen < fr.FirstStop() then Clear(fr, c - 1) else ZERO)
    else Clear(fr, fr.dataBits - 1)
  }

  lemma TellsApart(fr: Framing, c: nat, seen: nat)
    requires fr.Valid() && 0 < c < fr.FirstStop() && (seen == c - 1 || seen > c)
    ensures var b := Telling(fr, c, seen); CellLevel(fr, b, seen) != CellLevel(fr, b, c)
  {
    hide ParityOf;
    ClearIsClear(fr, if c <= fr.dataBits then c - 1 else fr.dataBits - 1);
  }

  /** A byte whose last cell before the stop cells is space. */
  function SpaceBeforeStop(fr: Framing): (b: Byte) {
    if fr.parity.NoParity? then ZERO else Clear(fr, 0)
  }

  /** Ones in the line from the second data cell on. */
  function MarkFromSecond(fr: Framing): (b: Byte)
    requires fr.Valid()
  {
    if ParityOf(fr, Ones(8)) then Ones(8) else Ones(8)[0 := false]
  }

  lemma {:induction false} OtherParity(b: Byte, b': Byte, n: nat)
    requires 0 < n <= 8 && b'[0] != b[0] && forall i | 0 < i < 8 :: b'[i] == b[i]
    ensures OddOnes(b', n) != OddOnes(b, n)
  {
    if n > 1 {
      OtherParity(b, b', n - 1);
    } else {
      assert OddOnes(b, 0) == OddOnes(b', 0);
    }
  }

  lemma MarkFromSecondOn(fr: Framing, c: nat)
    requires fr.Valid() && c >= 2
    ensures CellLevel(fr, MarkFromSecond(fr), c)
  {
    OtherParity(Ones(8), Ones(8)[0 := false], fr.dataBits);
    hide OddOnes;
  }

  /** Ones, but for the last data bit. */
  function LastZero(fr: Framing): (b: Byte)
    requires fr.Valid()
  {
    Ones(8)[fr.dataBits - 1 := false]
  }

  lemma LastZeroDips(fr: Framing, c: nat, c': nat, c'': nat)
    requires fr.Valid() && 1 <= c <= c' <= c''
    requires !CellLevel(fr, LastZero(fr), c) && CellLevel(fr, LastZero(fr), c')
    ensures CellLevel(fr, LastZero(fr), c'')
  {
    hide ParityOf;
  }

  // ---- A run that loses a byte ----

  /** Cell c is the first not to fit, and phi a start residue after which the cell seen is of another kind. */
  predicate Misses(fr: Framing, txInc: nat, rxInc: nat, c: nat, phi: nat)
    requires 0 < rxInc
  {
    var seen := CellSeen(c, phi, txInc, rxInc);
    && c < fr.Cells() && FitsBefore(fr, txInc, rxInc, c) && phi < txInc
    && ((0 < c <= fr.FirstStop() && seen == c - 1)
        || (Ends(fr, c) <= seen && (fr.FirstStop() <= c ==> seen <= fr.Cells() + 1)))
  }

  lemma FindsMiss(fr: Framing, txInc: nat, rxInc: nat) returns (c: nat, phi: nat)
    requires fr.Valid() && 0 < txInc && 0 < rxInc && !Fits(fr, txInc, rxInc)
    ensures Misses(fr, txInc, rxInc, c, phi) && phi < txInc
  {
    hide Roll, Fits, CellSeen, FitsBefore;
    c := FirstMisfit(fr, txInc, rxInc);
    CellFitsExactly(fr, txInc, rxInc, c);
    if Roll(c, rxInc) * txInc < FULL * Begins(fr, c) {
      phi := 0;
      EarlyByOne(fr, txInc, rxInc, c);
    } else {
      phi := txInc - 1;
      if fr.FirstStop() <= c {
        LateByTwo(fr, txInc, rxInc, c);
      }
    }
  }

  /** The bytes to send then. */
  function LostBytes(fr: Framing, c: nat, seen: nat): (bytes: seq<Byte>)
    requires fr.Valid()
    ensures 1 <= |bytes| <= 2
  {
    if c == 0 then [if seen == 1 then LastZero(fr) else MarkFromSecond(fr)]
    else if c < fr.FirstStop() then [Telling(fr, c, seen)]
    else if seen < fr.FirstStop() then [SpaceBeforeStop(fr)]
    else [ZERO, ZERO]
  }

  /** The levels from the first sample of the first frame on. */
  predicate Carries(fr: Framing, txInc: nat, phi: nat, bytes: seq<Byte>, levels: seq<bool>)
    requires fr.Valid()
  {
    forall j | 0 <= j < |levels| :: levels[j] == LevelAfter(fr, bytes, phi + j * txInc)
  }

  lemma LevelOfOne(fr: Framing, b: Byte, pos: nat)
    requires fr.Valid()
    ensures LevelAfter(fr, [b], pos) == CellLevel(fr, b, pos / FULL)
  {
    hide ParityOf;
    assert LevelAfter(fr, [], pos);
    if pos >= FrameTime(fr) {
      assert [b][1..] == [];
      assert pos / FULL >= fr.Cells();
    }
  }

  lemma LevelInFirst(fr: Framing, bytes: seq<Byte>, pos: nat)
    requires fr.Valid() && bytes != [] && pos / FULL < fr.Cells()
    ensures LevelAfter(fr, bytes, pos) == CellLevel(fr, bytes[0], pos / FULL)
  {
  }

  /** Up to that cell the receiver sees the levels it should. */
  lemma RightBefore(fr: Framing, txInc: nat, rxInc: nat, phi: nat, bytes: seq<Byte>, levels: seq<bool>, c: nat)
    requires fr.Valid() && bytes != [] && phi < txInc < FULL && 0 < rxInc && c < fr.Cells()
    requires FitsBefore(fr, txInc, rxInc, c) && Carries(fr, txInc, phi, bytes, levels) && |levels| > Roll(c, rxInc)
    ensures Roll(c, rxInc) >= 1 && !levels[0] && RightUpTo(fr, rxInc, bytes[0], levels[1..], 1, c)
  {
    hide Roll, LevelAfter, CellLevel, CellSeen;
    RollBounds(c, rxInc);
    LevelInFirst(fr, bytes, phi);
    assert levels[0] == LevelAfter(fr, bytes, phi + 0 * txInc);
    assert !CellLevel(fr, bytes[0], 0) by {
      StartIsSpace(fr, bytes[0]);
    }
    forall k | 0 <= k < c && 1 <= Roll(k, rxInc) < |levels|
      ensures levels[1..][Roll(k, rxInc) - 1] == CellLevel(fr, bytes[0], k)
    {
      CellFitsExactly(fr, txInc, rxInc, k);
      RightThere(fr, txInc, rxInc, phi, bytes, k);
    }
  }

  lemma StartIsSpace(fr: Framing, b: Byte)
    requires fr.Valid()
    ensures !CellLevel(fr, b, 0)
  {
  }

  lemma RightThere(fr: Framing, txInc: nat, rxInc: nat, phi: nat, bytes: seq<Byte>, k: nat)
    requires fr.Valid() && bytes != [] && 0 < rxInc && k < fr.Cells()
    requires Begins(fr, k) <= CellSeen(k, phi, txInc, rxInc) < Ends(fr, k)
    ensures LevelAfter(fr, bytes, phi + Roll(k, rxInc) * txInc) == CellLevel(fr, bytes[0], k)
  {
    hide Roll, LevelAfter, CellLevel;
    LevelInFirst(fr, bytes, phi + Roll(k, rxInc) * txInc);
    SameLevel(fr, bytes[0], k, CellSeen(k, phi, txInc, rxInc));
  }

  function Waiting(fr: Framing, txInc: nat, phi: nat): (t: TxState)
    requires fr.Valid() && phi < txInc < FULL
    ensures TxOk(t) && t.stage.TxIdle?
  {
    TxState(fr, txInc, FULL - txInc + phi, TxIdle, 0, 0, ZERO, false, true)
  }

  function Listening(fr: Framing, rxInc: nat): (r: RxState)
    requires fr.Valid() && 0 < rxInc < FULL
    ensures RxRanges(r) && r.stage.RxIdleMark?
  {
    RxState(fr, rxInc, 0, RxIdleMark, 0, 0, ZERO, false)
  }

  lemma Starts(fr: Framing, txInc: nat, phi: nat, bytes: seq<Byte>)
    requires fr.Valid() && phi < txInc < FULL && bytes != []
    ensures var t := Waiting(fr, txInc, phi);
            var (t', buf') := TxSample(t, bytes);
            && t.level && Draining(t', buf') && t'.fr == fr && t'.inc == txInc && TxPos(t') == phi
            && OnTheLine(t', buf') == bytes && |buf'| + 1 == |bytes| && Pulled(t, bytes) + buf' == bytes
  {
    hide ParityOf;
  }

  /** The transmitter starts with the next sample, and in the end has sent everything. */
  lemma SendsAll(fr: Framing, txInc: nat, phi: nat, bytes: seq<Byte>, n: nat) returns (levels: seq<bool>)
    requires fr.Valid() && phi < txInc < FULL && bytes != [] && n * txInc >= |bytes| * FrameTime(fr)
    ensures |levels| == n && Carries(fr, txInc, phi, bytes, levels)
    ensures var s := Transmit(Waiting(fr, txInc, phi), bytes, NoArrivals(n + 1));
            s.levels == [true] + levels && s.t.stage.TxIdle? && s.pulled == bytes
  {
    hide Transmit, TxSample, Draining, OnTheLine, TxPos, Pulled, LevelAfter, TxOk, FrameTime, Waiting, InTxFrame;
    var t := Waiting(fr, txInc, phi);
    var (t', buf') := TxSample(t, bytes);
    Starts(fr, txInc, phi, bytes);
    TransmitOnce(t, bytes, n);
    Drains(t', buf', n);
    levels := Transmit(t', buf', NoArrivals(n)).levels;
    HowMany(t', buf', n);
    forall j | 0 <= j < n ensures levels[j] == LevelAfter(fr, bytes, phi + j * txInc) {
      LevelsOf(t', buf', n, j, j * txInc);
    }
  }

  /** The cell on the line at sample j. */
  function CellAt(phi: nat, j: nat, txInc: nat): (c: nat) {
    (phi + j * txInc) / FULL
  }

  /** The cells on the line do not go back. */
  lemma CellsGoOn(phi: nat, j: nat, k: nat, txInc: nat)
    requires j <= k
    ensures CellAt(phi, j, txInc) <= CellAt(phi, k, txInc)
  {
    Monotone(j, k, txInc);
  }

  lemma LevelsOfOne(fr: Framing, txInc: nat, phi: nat, b: Byte, levels: seq<bool>, j: nat)
    requires fr.Valid() && Carries(fr, txInc, phi, [b], levels) && j < |levels|
    ensures levels[j] == CellLevel(fr, b, CellAt(phi, j, txInc))
  {
    hide CellLevel, LevelAfter;
    LevelOfOne(fr, b, phi + j * txInc);
  }

  lemma MarkInFirst(fr: Framing)
    requires fr.Valid()
    ensures CellLevel(fr, LastZero(fr), 1) && LastZero(fr)[0] && !LastZero(fr)[fr.dataBits - 1]
  {
  }

  lemma DipRemains(fr: Framing, txInc: nat, phi: nat, levels: seq<bool>, n: nat)
    requires fr.Valid() && Carries(fr, txInc, phi, [LastZero(fr)], levels)
    requires n <= |levels| && CellAt(phi, n, txInc) >= 1
    ensures OneDip(levels[n..])
  {
    hide LastZero, CellLevel, LevelAfter, Carries, CellAt;
    forall i, j, k | 0 <= i < j < k < |levels| - n && !levels[n..][i] && levels[n..][j] ensures levels[n..][k] {
      CellsGoOn(phi, n, n + i, txInc);
      CellsGoOn(phi, n + i, n + j, txInc);
      CellsGoOn(phi, n + j, n + k, txInc);
      LevelsOfOne(fr, txInc, phi, LastZero(fr), levels, n + i);
      LevelsOfOne(fr, txInc, phi, LastZero(fr), levels, n + j);
      LevelsOfOne(fr, txInc, phi, LastZero(fr), levels, n + k);
      LastZeroDips(fr, CellAt(phi, n + i, txInc), CellAt(phi, n + j, txInc), CellAt(phi, n + k, txInc));
    }
  }

  lemma MarkRemains(fr: Framing, txInc: nat, phi: nat, levels: seq<bool>, n: nat)
    requires fr.Valid() && Carries(fr, txInc, phi, [MarkFromSecond(fr)], levels)
    requires n <= |levels| && CellAt(phi, n, txInc) >= 2
    ensures levels[n..] == Ones(|levels| - n)
  {
    hide MarkFromSecond, CellLevel, LevelAfter, Carries, CellAt;
    forall i | 0 <= i < |levels| - n ensures levels[n..][i] {
      CellsGoOn(phi, n, n + i, txInc);
      LevelsOfOne(fr, txInc, phi, MarkFromSecond(fr), levels, n + i);
      MarkFromSecondOn(fr, CellAt(phi, n + i, txInc));
    }
  }

  /** The start cell is seen as mark, and what follows is not the byte. */
  lemma StartLost(fr: Framing, txInc: nat, rxInc: nat, phi: nat, levels: seq<bool>)
    requires fr.Valid() && txInc < FULL && 0 < rxInc < FULL && Misses(fr, txInc, rxInc, 0, phi)
    requires Carries(fr, txInc, phi, LostBytes(fr, 0, CellSeen(0, phi, txInc, rxInc)), levels)
    requires |levels| > Roll(0, rxInc)
    ensures Off(Receive(Listening(fr, rxInc), levels).1,
                Masked(fr, LostBytes(fr, 0, CellSeen(0, phi, txInc, rxInc))[0]))
  {
    hide Roll, LevelAfter, CellLevel, Receive, Masked, LastZero, MarkFromSecond, Carries, RightUpTo, RxRanges;
    var n, seen := Roll(0, rxInc), CellSeen(0, phi, txInc, rxInc);
    var b := LostBytes(fr, 0, seen)[0];
    RightBefore(fr, txInc, rxInc, phi, [b], levels, 0);
    LevelsOfOne(fr, txInc, phi, b, levels, n);
    CellsGoOn(phi, n, n + 1, txInc);
    if seen == 1 {
      MarkInFirst(fr);
      var r' := MissesTheStart(Listening(fr, rxInc), levels);
      DipRemains(fr, txInc, phi, levels, n + 1);
      NoByteInDip(r', b, levels[n + 1..]);
    } else {
      MarkFromSecondOn(fr, seen);
      var r' := MissesTheStart(Listening(fr, rxInc), levels);
      MarkRemains(fr, txInc, phi, levels, n + 1);
      IdleThroughMarks(r', |levels| - n - 1);
    }
  }

  /** The cell seen instead has another level. */
  lemma AnotherLevel(fr: Framing, txInc: nat, rxInc: nat, c: nat, phi: nat)
    requires fr.Valid() && 0 < rxInc && c > 0 && Misses(fr, txInc, rxInc, c, phi)
    ensures var seen := CellSeen(c, phi, txInc, rxInc);
            var bytes := LostBytes(fr, c, seen);
            LevelAfter(fr, bytes, phi + Roll(c, rxInc) * txInc) != CellLevel(fr, bytes[0], c)
  {
    hide Roll, CellLevel, LevelAfter, FitsBefore, Telling, SpaceBeforeStop;
    var seen, pos := CellSeen(c, phi, txInc, rxInc), phi + Roll(c, rxInc) * txInc;
    if c < fr.FirstStop() {
      LevelOfOne(fr, Telling(fr, c, seen), pos);
      TellsApart(fr, c, seen);
    } else if seen < fr.FirstStop() {
      LevelOfOne(fr, SpaceBeforeStop(fr), pos);
      StopIsMark(fr, SpaceBeforeStop(fr), c);
      SpaceThere(fr);
    } else {
      StopIsMark(fr, ZERO, c);
      SpaceAgain(fr, pos);
    }
  }

  lemma StopIsMark(fr: Framing, b: Byte, c: nat)
    requires fr.Valid() && fr.FirstStop() <= c
    ensures CellLevel(fr, b, c)
  {
  }

  lemma SpaceThere(fr: Framing)
    requires fr.Valid()
    ensures !CellLevel(fr, SpaceBeforeStop(fr), fr.FirstStop() - 1)
  {
    hide ParityOf;
    ClearIsClear(fr, 0);
  }

  lemma SpaceAgain(fr: Framing, pos: nat)
    requires fr.Valid() && fr.Cells() <= pos / FULL <= fr.Cells() + 1
    ensures !LevelAfter(fr, [ZERO, ZERO], pos)
  {
    assert [ZERO, ZERO][1..] == [ZERO];
    LevelOfOne(fr, ZERO, pos - FrameTime(fr));
    assert (pos - FrameTime(fr)) / FULL == pos / FULL - fr.Cells();
  }

  /** The first thing reported, if any, is not the first byte sent. */
  lemma FirstIsOff(fr: Framing, txInc: nat, rxInc: nat, c: nat, phi: nat, levels: seq<bool>)
    requires fr.Valid() && txInc < FULL && 0 < rxInc < FULL && Misses(fr, txInc, rxInc, c, phi)
    requires Carries(fr, txInc, phi, LostBytes(fr, c, CellSeen(c, phi, txInc, rxInc)), levels)
    requires |levels| > Roll(c, rxInc)
    ensures Off(Receive(Listening(fr, rxInc), levels).1,
                Masked(fr, LostBytes(fr, c, CellSeen(c, phi, txInc, rxInc))[0]))
  {
    hide Roll, LevelAfter, CellLevel, Receive, Masked, LostBytes, RightUpTo, RxRanges, CellSeen;
    if c == 0 {
      StartLost(fr, txInc, rxInc, phi, levels);
    } else {
      var bytes := LostBytes(fr, c, CellSeen(c, phi, txInc, rxInc));
      RightBefore(fr, txInc, rxInc, phi, bytes, levels, c);
      AnotherLevel(fr, txInc, rxInc, c, phi);
      GoesWrong(Listening(fr, rxInc), bytes[0], levels, c);
    }
  }

  lemma NotDelivered(t: TxState, r: RxState, bytes: seq<Byte>, arrivals: seq<seq<Byte>>, levels: seq<bool>)
    requires TxOk(t) && RxRanges(r) && r.stage.RxIdleMark? && bytes != []
    requires var s := Transmit(t, bytes, arrivals);
             s.levels == [true] + levels && s.t.stage.TxIdle? && s.pulled == bytes
    requires Off(Receive(r, levels).1, Masked(t.fr, bytes[0]))
    ensures Off(Receive(r, Transmit(t, bytes, arrivals).levels).1, Masked(t.fr, bytes[0]))
    ensures !Delivered(t, r, bytes, arrivals)
  {
    hide TxOk, RxRanges, Transmit, Receive, Masked;
    assert Ones(1) == [true];
    DelayChangesNothing(r, 1, levels);
    assert |Deliveries(t.fr, bytes)| > 0 && Deliveries(t.fr, bytes)[0] == Got(Masked(t.fr, bytes[0]));
  }

  /** Both ends idle, with any start residue. */
  predicate AtRest(fr: Framing, txInc: nat, rxInc: nat, t: TxState, r: RxState)
    ensures AtRest(fr, txInc, rxInc, t, r) ==> TxOk(t) && RxRanges(r)
  {
    && TxOk(t) && t.stage.TxIdle? && t.fr == fr && t.inc == txInc
    && RxRanges(r) && r.stage.RxIdleMark? && r.fr == fr && r.inc == rxInc
  }

  lemma Enough(m: nat, n: nat, txInc: nat)
    requires m <= n && txInc > 0
    ensures n * txInc >= m
  {
    Monotone(1, txInc, n);
  }

  /** Increments that do not fit lose a byte: one start residue and at most two bytes in the queue show it. All of them
      have been sent, and the first report, if there is any, is not the first byte. */
  lemma Loses(fr: Framing, txInc: nat, rxInc: nat)
      returns (t: TxState, r: RxState, bytes: seq<Byte>, arrivals: seq<seq<Byte>>)
    requires fr.Valid() && 0 < txInc < FULL && 0 < rxInc < FULL && !Fits(fr, txInc, rxInc)
    ensures AtRest(fr, txInc, rxInc, t, r) && 1 <= |bytes| <= 2 && Flatten(arrivals) == []
    ensures var s := Transmit(t, bytes, arrivals);
            s.t.stage.TxIdle? && s.pulled == bytes && Off(Receive(r, s.levels).1, Masked(fr, bytes[0]))
    ensures !Delivered(t, r, bytes, arrivals)
  {
    hide Roll, Transmit, Receive, Masked, Fits, Misses, LostBytes, CellSeen, Carries, Delivered, FrameTime;
    var c, phi := FindsMiss(fr, txInc, rxInc);
    t, r := Waiting(fr, txInc, phi), Listening(fr, rxInc);
    bytes := LostBytes(fr, c, CellSeen(c, phi, txInc, rxInc));
    var n := |bytes| * FrameTime(fr) + Roll(c, rxInc) + 1;
    Enough(|bytes| * FrameTime(fr), n, txInc);
    var levels := SendsAll(fr, txInc, phi, bytes, n);
    arrivals := NoArrivals(n + 1);
    NothingArrives(n + 1);
    FirstIsOff(fr, txInc, rxInc, c, phi, levels);
    NotDelivered(t, r, bytes, arrivals, levels);
  }

  /** The round trip holds, for all start residues, bytes and arrival times, if and only if the increments fit. */
  lemma RoundTripExactly(fr: Framing, txInc: nat, rxInc: nat)
    requires fr.Valid() && 0 < txInc < FULL && 0 < rxInc < FULL
    ensures Fits(fr, txInc, rxInc)
            <==> forall t: TxState, r: RxState, buf: seq<Byte>, arrivals: seq<seq<Byte>> |
                   AtRest(fr, txInc, rxInc, t, r) :: Delivered(t, r, buf, arrivals)
  {
    hide Fits, Delivered, TxOk, RxRanges;
    if Fits(fr, txInc, rxInc) {
      forall t: TxState, r: RxState, buf: seq<Byte>, arrivals: seq<seq<Byte>> | AtRest(fr, txInc, rxInc, t, r)
        ensures Delivered(t, r, buf, arrivals)
      {
        RoundTrip(t, r, buf, arrivals);
      }
    } else {
      var t, r, bytes, arrivals := Loses(fr, txInc, rxInc);
      assert AtRest(fr, txInc, rxInc, t, r) && !Delivered(t, r, bytes, arrivals);
    }
  }

  // ---- In bauds ----

  lemma RollFalls(c: nat, rxInc: nat, rxInc': nat)
    requires 0 < rxInc <= rxInc'
    ensures Roll(c, rxInc') <= Roll(c, rxInc)
  {
    hide Roll;
    var n, n' := Roll(c, rxInc), Roll(c, rxInc');
    RollBounds(c, rxInc);
    RollBounds(c, rxInc');
    if n' > n {
      Monotone(n, n' - 1, rxInc');
      Monotone(rxInc, rxInc', n);
      OneMore(n' - 1, rxInc');
    }
  }

  /** The receiver clocks that fit a transmitter have no gap. */
  lemma FitsBetween(fr: Framing, txInc: nat, slow: nat, rxInc: nat, fast: nat)
    requires 0 < slow <= rxInc <= fast && Fits(fr, txInc, slow) && Fits(fr, txInc, fast)
    ensures Fits(fr, txInc, rxInc)
  {
    hide Roll, Begins, Ends;
    forall c: nat | c < fr.Cells() ensures CellFits(fr, txInc, rxInc, c) {
      assert CellFits(fr, txInc, slow, c) && CellFits(fr, txInc, fast, c);
      RollFalls(c, slow, rxInc);
      RollFalls(c, rxInc, fast);
      Monotone(Roll(c, fast), Roll(c, rxInc), txInc);
      Monotone(Roll(c, rxInc) + 1, Roll(c, slow) + 1, txInc);
    }
  }

  /** The bit-clock increment for a baud rate. */
  function BitIncrement(baud: nat): (inc: nat) {
    baud * FULL / 8000
  }

  const EIGHT_N_ONE := Framing(8, NoParity, 1)

  /** With eight data bits, no parity and one stop bit, a 300 baud transmitter is understood by exactly the receivers of
      287 to 316 baud. */
  lemma AtThreeHundred(baud: nat)
    requires 0 < baud < 8000
    ensures Fits(EIGHT_N_ONE, BitIncrement(300), BitIncrement(baud)) <==> 287 <= baud <= 316
  {
    EndsOfRange();
    var rxInc := BitIncrement(baud);
    hide Roll, Fits, EIGHT_N_ONE;
    if baud < 287 {
      RollFalls(9, rxInc, 2342);
      Monotone(267, Roll(9, rxInc) + 1, 2457);
      LastCell(rxInc);
    } else if baud > 316 {
      RollFalls(9, 2596, rxInc);
      Monotone(Roll(9, rxInc), 240, 2457);
      LastCell(rxInc);
    } else {
      FitsBetween(EIGHT_N_ONE, 2457, 2351, rxInc, 2588);
    }
  }

  lemma LastCell(rxInc: nat)
    requires rxInc > 0
    ensures Fits(EIGHT_N_ONE, 2457, rxInc)
            ==> FULL * 9 <= Roll(9, rxInc) * 2457 && (Roll(9, rxInc) + 1) * 2457 <= FULL * 10
  {
    hide Roll;
    assert Fits(EIGHT_N_ONE, 2457, rxInc) ==> CellFits(EIGHT_N_ONE, 2457, rxInc, 9);
  }

  lemma EndsOfRange()
    ensures Fits(EIGHT_N_ONE, 2457, 2351) && Fits(EIGHT_N_ONE, 2457, 2588)
    ensures Roll(9, 2342) == 266 && Roll(9, 2596) == 240
  {
  }
}
