/** The FSK framers across a line: independent bit clocks, any idle gaps, any start residue. */
module FskRoundTrip {
  import opened ByteBits
  import opened FskFramer
  import opened Sequences

  // ---- Where the two framers are in a frame ----

  predicate InTxFrame(t: TxState) {
    !t.stage.TxIdle?
  }

  /** The cell of the frame the transmitter is sending. */
  function TxCell(t: TxState): (c: nat) {
    match t.stage
    case TxIdle => 0
    case TxStart => 0
    case TxData => 1 + t.bitIndex
    case TxParity => 1 + t.fr.dataBits
    case TxStop => t.fr.FirstStop() + t.stopIndex
  }

  /** How many cells the receiver has sampled. */
  function Sampled(r: RxState): (n: nat) {
    match r.stage
    case RxIdleMark => 0
    case RxStartValidate => 0
    case RxData => 1 + r.bitIndex
    case RxParity => 1 + r.fr.dataBits
    case RxStop => r.fr.FirstStop() + r.stopIndex
  }

  /** The level of a cell of the frame for b. */
  function CellLevel(fr: Framing, b: Byte, c: nat): (level: bool)
    requires fr.Valid()
  {
    if c == 0 then false
    else if c <= fr.dataBits then b[c - 1]
    else if c == 1 + fr.dataBits && !fr.parity.NoParity? then ParityOf(fr, b)
    else true
  }

  predicate TxOk(t: TxState)
    ensures TxOk(t) ==> t.fr.Valid() && t.phase < FULL && 0 < t.inc < FULL
  {
    && t.fr.Valid() && t.phase < FULL && 0 < t.inc < FULL
    && (t.stage.TxData? ==> t.bitIndex < t.fr.dataBits)
    && (t.stage.TxStop? ==> t.stopIndex < t.fr.stopBits)
    && (t.stage.TxParity? ==> !t.fr.parity.NoParity?)
    && (InTxFrame(t) ==> t.parityBit == ParityOf(t.fr, t.cur))
    && t.level == (if InTxFrame(t) then CellLevel(t.fr, t.cur, TxCell(t)) else true)
  }

  /** What the receiver has collected of b so far. */
  predicate Collected(r: RxState, b: Byte)
    requires r.fr.Valid()
  {
    match r.stage
    case RxData =>
      && r.bitIndex <= 8
      && (forall k | 0 <= k < 8 :: r.shift[k] == (k < r.bitIndex && b[k]))
      && r.parityAcc == OddOnes(b, r.bitIndex)
    case RxParity => r.shift == Masked(r.fr, b) && r.parityAcc == OddOnes(b, r.fr.dataBits)
    case RxStop => r.shift == Masked(r.fr, b)
    case _ => true
  }

  // ---- One framer step ----

  /** On a rollover inside a frame the transmitter goes to the next cell; at the end of a frame it is idle or
      at the start of a new one. */
  lemma TxAdvances(t: TxState, buf: seq<Byte>)
    requires TxOk(t)
    ensures var (t', buf') := TxAdvance(t, buf);
            && TxOk(t') && t'.fr == t.fr && t'.inc == t.inc && t'.phase == t.phase
            && (if InTxFrame(t) && TxCell(t) + 1 < t.fr.Cells() then
                  InTxFrame(t') && TxCell(t') == TxCell(t) + 1 && t'.cur == t.cur && buf' == buf
                else if buf == [] then !InTxFrame(t') && buf' == []
                else t'.stage.TxStart? && t'.cur == buf[0] && buf' == buf[1..])
  {
    hide ParityOf;
  }

  /** On a rollover that sees the level of the next cell the receiver collects it. */
  lemma RxAdvances(r: RxState, b: Byte)
    requires RxRanges(r) && !r.stage.RxIdleMark? && Collected(r, b)
    ensures var (r', report) := RxAdvance(r, CellLevel(r.fr, b, Sampled(r)));
            && r'.fr == r.fr && r'.inc == r.inc && r'.phase == r.phase && Collected(r', b)
            && (if Sampled(r) + 1 < r.fr.Cells() then
                  report == Nothing && !r'.stage.RxIdleMark? && Sampled(r') == Sampled(r) + 1
                else report == Got(Masked(r.fr, b)) && r'.stage.RxIdleMark?)
  {
    hide Masked, OddOnes;
    match r.stage
    case RxIdleMark =>
    case RxData =>
      assert CellLevel(r.fr, b, Sampled(r)) == b[r.bitIndex];
      CollectsOneMore(r, b);
    case RxStartValidate =>
      assert !CellLevel(r.fr, b, Sampled(r));
      NothingCollected(b);
    case RxParity => assert CellLevel(r.fr, b, Sampled(r)) == ParityOf(r.fr, b);
    case RxStop => assert CellLevel(r.fr, b, Sampled(r));
  }

  lemma NothingCollected(b: Byte)
    ensures !OddOnes(b, 0)
  {
  }

  /** One data bit more in the shift register and in the parity. */
  lemma CollectsOneMore(r: RxState, b: Byte)
    requires RxRanges(r) && r.stage.RxData? && Collected(r, b)
    ensures var (r', report) := RxAdvance(r, b[r.bitIndex]);
            && r'.fr == r.fr && r'.inc == r.inc && r'.phase == r.phase && report == Nothing && Collected(r', b)
            && Sampled(r') == Sampled(r) + 1 && !r'.stage.RxIdleMark?
  {
    hide Masked, ParityOf;
    var r' := RxAdvance(r, b[r.bitIndex]).0;
    assert OddOnes(b, r.bitIndex + 1) == (OddOnes(b, r.bitIndex) != b[r.bitIndex]);
    forall k | 0 <= k < 8 ensures r'.shift[k] == (k < r.bitIndex + 1 && b[k]) {
    }
    if r.bitIndex + 1 == r.fr.dataBits {
      MaskedCollected(r.fr, b, r'.shift);
    }
  }

  lemma MaskedCollected(fr: Framing, b: Byte, shift: Byte)
    requires fr.Valid() && forall k | 0 <= k < 8 :: shift[k] == (k < fr.dataBits && b[k])
    ensures shift == Masked(fr, b)
  {
    hide Masked;
  }

  // ---- Bit clocks ----

  /** Time within the frame in units of 1/65536 of a cell. */
  function TxPos(t: TxState): (pos: nat) {
    FULL * TxCell(t) + t.phase
  }

  function RxPos(r: RxState): (pos: nat) {
    FULL * Sampled(r) + r.phase
  }

  /** The sample of a frame, counted from its first, at which the receiver's clock rolls over for cell c. */
  function Roll(c: nat, rxInc: nat): (n: nat)
    requires rxInc > 0
  {
    (FULL * (c + 1) - HALF - 1) / rxInc + 1
  }

  /** Where the cells with the level of cell c begin and end: a stop sample may fall into any stop cell. */
  function Begins(fr: Framing, c: nat): (first: nat) {
    if c < fr.FirstStop() then c else fr.FirstStop()
  }

  function Ends(fr: Framing, c: nat): (end: nat) {
    if c < fr.FirstStop() then c + 1 else fr.Cells()
  }

  /** At the receiver's rollover for cell c the transmitter has begun the right cells even without a start residue,
      and has not ended them even with the largest one. */
  predicate CellFits(fr: Framing, txInc: nat, rxInc: nat, c: nat)
    requires 0 < rxInc
  {
    FULL * Begins(fr, c) <= Roll(c, rxInc) * txInc && (Roll(c, rxInc) + 1) * txInc <= FULL * Ends(fr, c)
  }

  predicate Fits(fr: Framing, txInc: nat, rxInc: nat) {
    && 0 < txInc && 0 < rxInc
    && forall c: nat | c < fr.Cells() :: CellFits(fr, txInc, rxInc, c)
  }

  /** The cell on the line at the receiver's rollover for cell c, after a start residue of phi. */
  function CellSeen(c: nat, phi: nat, txInc: nat, rxInc: nat): (seen: nat)
    requires rxInc > 0
  {
    (phi + Roll(c, rxInc) * txInc) / FULL
  }

  /** A cell fits exactly if no start residue makes the receiver look at a cell of another kind. */
  lemma CellFitsExactly(fr: Framing, txInc: nat, rxInc: nat, c: nat)
    requires 0 < txInc && 0 < rxInc
    ensures CellFits(fr, txInc, rxInc, c)
            <==> forall phi: nat | phi < txInc :: Begins(fr, c) <= CellSeen(c, phi, txInc, rxInc) < Ends(fr, c)
    ensures Roll(c, rxInc) * txInc < FULL * Begins(fr, c) ==> CellSeen(c, 0, txInc, rxInc) < Begins(fr, c)
    ensures (Roll(c, rxInc) + 1) * txInc > FULL * Ends(fr, c)
            ==> CellSeen(c, txInc - 1, txInc, rxInc) >= Ends(fr, c)
  {
    hide Roll, Begins, Ends;
    OneMore(Roll(c, rxInc), txInc);
    if forall phi: nat | phi < txInc :: Begins(fr, c) <= CellSeen(c, phi, txInc, rxInc) < Ends(fr, c) {
      assert CellSeen(c, 0, txInc, rxInc) >= Begins(fr, c) && CellSeen(c, txInc - 1, txInc, rxInc) < Ends(fr, c);
    }
  }

  /** A bound on the drift over a frame: the sampling grain leaves half a cell, and the drift up to the last rollover
      stays within what is left. */
  predicate Tolerant(fr: Framing, txInc: nat, rxInc: nat)
    requires fr.Valid()
  {
    && 0 < txInc && 0 < rxInc && txInc + rxInc <= HALF
    && var last := Roll(fr.Cells() - 1, rxInc);
       last * (rxInc - txInc) <= HALF && txInc + rxInc + last * (txInc - rxInc) <= HALF
  }

  /** The drift bound is enough. */
  lemma TolerantFits(fr: Framing, txInc: nat, rxInc: nat)
    requires fr.Valid() && Tolerant(fr, txInc, rxInc)
    ensures Fits(fr, txInc, rxInc)
  {
    hide Roll;
    var last := Roll(fr.Cells() - 1, rxInc);
    forall c: nat | c < fr.Cells() ensures CellFits(fr, txInc, rxInc, c) {
      RollBounds(c, rxInc);
      RollGrows(c, fr.Cells() - 1, rxInc);
      BoundedDrift(Roll(c, rxInc), last, FULL * (c + 1), txInc, rxInc);
    }
  }

  lemma BoundedDrift(n: nat, last: nat, end: nat, txInc: nat, rxInc: nat)
    requires n <= last && txInc + rxInc <= HALF
    requires last * (rxInc - txInc) <= HALF && txInc + rxInc + last * (txInc - rxInc) <= HALF
    requires HALF + n * rxInc - rxInc < end <= HALF + n * rxInc
    ensures end - FULL <= n * txInc && (n + 1) * txInc <= end
  {
    Monotone(n, last, rxInc - txInc);
    Monotone(n, last, txInc - rxInc);
    Difference(n, txInc, rxInc);
    Difference(n, rxInc, txInc);
    OneMore(n, txInc);
  }

  lemma Difference(n: int, x: int, y: int)
    ensures n * (x - y) == n * x - n * y
  {
  }

  /** The rollover comes with the first sample that completes the cell on the receiver's clock. */
  lemma RollBounds(c: nat, rxInc: nat)
    requires rxInc > 0
    ensures Roll(c, rxInc) >= 1
    ensures HALF + Roll(c, rxInc) * rxInc - rxInc < FULL * (c + 1) <= HALF + Roll(c, rxInc) * rxInc
  {
    var limit := FULL * (c + 1) - HALF - 1;
    assert limit == limit / rxInc * rxInc + limit % rxInc;
    OneMore(limit / rxInc, rxInc);
  }

  /** ... and with no other. */
  lemma RollIs(c: nat, rxInc: nat, j: nat)
    requires rxInc > 0 && HALF + j * rxInc - rxInc < FULL * (c + 1) <= HALF + j * rxInc
    ensures j == Roll(c, rxInc)
  {
    hide Roll;
    var n := Roll(c, rxInc);
    RollBounds(c, rxInc);
    if j < n {
      Monotone(j + 1, n, rxInc);
      OneMore(j, rxInc);
    } else if j > n {
      Monotone(n + 1, j, rxInc);
      OneMore(n, rxInc);
    }
  }

  lemma RollGrows(c: nat, c': nat, rxInc: nat)
    requires rxInc > 0 && c <= c'
    ensures Roll(c, rxInc) <= Roll(c', rxInc)
  {
    hide Roll;
    var n, n' := Roll(c, rxInc), Roll(c', rxInc);
    RollBounds(c, rxInc);
    RollBounds(c', rxInc);
    if n > n' {
      Monotone(n' + 1, n, rxInc);
      OneMore(n', rxInc);
    }
  }

  /** Equal increments up to a quarter of a cell are always tolerant: no drift. */
  lemma EqualIncrementsTolerant(fr: Framing, inc: nat)
    requires fr.Valid() && 0 < inc <= 16384
    ensures Tolerant(fr, inc, inc) && Fits(fr, inc, inc)
  {
    hide Roll;
    var last := Roll(fr.Cells() - 1, inc);
    assert last * (inc - inc) == 0;
    TolerantFits(fr, inc, inc);
  }

  /** The modem's own bit clocks, 75, 300 and 1200 baud at 8000 samples per second, are tolerant. */
  lemma ProfilesTolerant(fr: Framing, baud: nat)
    requires fr.Valid() && (baud == 75 || baud == 300 || baud == 1200)
    ensures Fits(fr, baud * FULL / 8000, baud * FULL / 8000)
  {
    EqualIncrementsTolerant(fr, baud * FULL / 8000);
  }

  lemma Monotone(j: nat, bound: nat, d: int)
    requires j <= bound
    ensures d >= 0 ==> j * d <= bound * d
    ensures d <= 0 ==> j * d >= bound * d
    ensures d >= 0 ==> j * d >= 0
    ensures d <= 0 ==> j * d <= 0
  {
  }

  // ---- The invariant of the pair ----

  /** A transmitter and a receiver on one line. During a frame j counts the samples since its first, and phi is
      the transmitter's clock residue at that sample. */
  datatype Link = Link(t: TxState, r: RxState, j: nat, phi: nat)

  predicate Linked(l: Link)
    ensures Linked(l) ==> TxOk(l.t) && RxRanges(l.r)
  {
    && TxOk(l.t) && RxRanges(l.r) && l.t.fr == l.r.fr && Fits(l.t.fr, l.t.inc, l.r.inc)
    && if l.r.stage.RxIdleMark? then
         l.t.stage.TxIdle? || l.t.stage.TxStop? || (l.t.stage.TxStart? && l.t.phase < l.t.inc)
       else
         && InTxFrame(l.t) && Collected(l.r, l.t.cur)
         && l.j >= 1 && l.phi < l.t.inc && InTime(l)
  }

  predicate InTime(l: Link) {
    TxPos(l.t) == l.phi + l.j * l.t.inc && RxPos(l.r) == HALF + (l.j - 1) * l.r.inc
  }

  function LinkNext(l: Link, buf: seq<Byte>): (l': Link)
    requires Linked(l)
  {
    var r := RxSample(l.r, l.t.level).0;
    Link(TxSample(l.t, buf).0, r,
         if l.r.stage.RxIdleMark? then 1 else l.j + 1, if l.r.stage.RxIdleMark? then l.t.phase else l.phi)
  }

  /** When the receiver's clock rolls over, the line carries the next cell to be sampled, or another stop cell if that
      is one. */
  lemma SamplesTheRightCell(l: Link)
    requires Linked(l) && !l.r.stage.RxIdleMark? && l.r.phase + l.r.inc >= FULL
    ensures Begins(l.t.fr, Sampled(l.r)) <= TxCell(l.t) < Ends(l.t.fr, Sampled(l.r))
  {
    LinkedParts(l);
    hide Linked, Roll, TxCell, Sampled, Begins, Ends;
    var c, rxInc, txInc := Sampled(l.r), l.r.inc, l.t.inc;
    OneMore(l.j - 1, rxInc);
    RollIs(c, rxInc, l.j);
    assert CellFits(l.t.fr, txInc, rxInc, c);
    OneMore(l.j, txInc);
    assert FULL * Begins(l.t.fr, c) <= TxPos(l.t) < FULL * Ends(l.t.fr, c);
    assert l.t.phase < FULL;
  }

  lemma SameLevel(fr: Framing, b: Byte, c: nat, seen: nat)
    requires fr.Valid() && c < fr.Cells() && Begins(fr, c) <= seen < Ends(fr, c)
    ensures CellLevel(fr, b, seen) == CellLevel(fr, b, c)
  {
    hide ParityOf;
  }

  /** As long as cells remain to be sampled the transmitter stays in the frame. */
  lemma FrameGoesOn(l: Link)
    requires Linked(l) && !l.r.stage.RxIdleMark? && RxPos(l.r) + l.r.inc < FULL * l.t.fr.Cells()
    ensures TxPos(l.t) + l.t.inc < FULL * l.t.fr.Cells()
  {
    LinkedParts(l);
    hide Linked, Roll, TxPos, RxPos;
    var last, rxInc, txInc := l.t.fr.Cells() - 1, l.r.inc, l.t.inc;
    var n := Roll(last, rxInc);
    OneMore(l.j - 1, rxInc);
    RollBounds(last, rxInc);
    if n <= l.j {
      Monotone(n, l.j, rxInc);
    }
    Monotone(l.j + 1, n, txInc);
    OneMore(l.j, txInc);
    OneMore(n, txInc);
    assert CellFits(l.t.fr, txInc, rxInc, last);
  }

  lemma StopCells(t: TxState)
    requires TxOk(t)
    ensures t.stage.TxStop? <==> t.fr.FirstStop() <= TxCell(t)
  {
  }

  lemma TxMovesOn(t: TxState, buf: seq<Byte>)
    requires TxOk(t)
    ensures var (t', buf') := TxSample(t, buf);
            && TxOk(t') && t'.fr == t.fr && t'.inc == t.inc
            && (InTxFrame(t) && TxPos(t) + t.inc < FULL * t.fr.Cells() ==>
                  InTxFrame(t') && t'.cur == t.cur && TxPos(t') == TxPos(t) + t.inc && buf' == buf)
            && (!InTxFrame(t) || t.stage.TxStop? ==>
                  || (t'.stage.TxStop? && t.stage.TxStop? && buf' == buf)
                  || (!InTxFrame(t') && buf' == buf)
                  || (buf != [] && t'.stage.TxStart? && t'.phase < t'.inc && t'.cur == buf[0] && buf' == buf[1..]))
  {
    hide TxAdvance;
    var tick := BitTick(t.phase, t.inc);
    StopCells(t);
    if tick.1 {
      TxAdvances(t.(phase := tick.0), buf);
      StopCells(TxAdvance(t.(phase := tick.0), buf).0);
      if InTxFrame(t) && TxPos(t) + t.inc < FULL * t.fr.Cells() {
        assert TxCell(t) + 1 < t.fr.Cells();
      }
    }
  }

  lemma RxMovesOn(r: RxState, b: Byte, level: bool)
    requires RxRanges(r) && !r.stage.RxIdleMark? && Collected(r, b)
    requires r.phase + r.inc >= FULL ==> level == CellLevel(r.fr, b, Sampled(r))
    ensures var (r', report) := RxSample(r, level);
            if RxPos(r) + r.inc < FULL * r.fr.Cells() then
              report == Nothing && !r'.stage.RxIdleMark? && Collected(r', b) && RxPos(r') == RxPos(r) + r.inc
            else
              report == Got(Masked(r.fr, b)) && r'.stage.RxIdleMark?
  {
    hide RxAdvance, CellLevel, Masked;
    var tick := BitTick(r.phase, r.inc);
    assert Sampled(r) < r.fr.Cells();
    if tick.1 {
      RxAdvances(r.(phase := tick.0), b);
    }
  }

  // ---- What has been delivered ----

  /** The report for the byte on the line that the receiver has yet to deliver. */
  function Pending(l: Link): (reports: seq<Report>)
    requires l.t.fr.Valid()
    ensures |reports| <= 1 && (l.t.stage.TxIdle? ==> reports == [])
  {
    if l.t.stage.TxIdle? || (l.r.stage.RxIdleMark? && !l.t.stage.TxStart?) then [] else [Got(Masked(l.t.fr, l.t.cur))]
  }

  function Reported(report: Report): (reports: seq<Report>) {
    if report.Nothing? then [] else [report]
  }

  /** The byte the transmitter pulls off its queue with this sample. */
  function Pulled(t: TxState, buf: seq<Byte>): (bytes: seq<Byte>)
    requires t.fr.Valid() && t.phase < FULL && t.inc < FULL
  {
    if TxSample(t, buf).1 == buf then [] else buf[..1]
  }

  lemma PullsFromTheFront(t: TxState, buf: seq<Byte>)
    requires TxOk(t)
    ensures buf == Pulled(t, buf) + TxSample(t, buf).1 && TxSample(t, buf).0.fr == t.fr
  {
    hide ParityOf, CellLevel;
  }

  /** The reports that deliver some bytes, each masked to the data bits of the framing. */
  function Deliveries(fr: Framing, bytes: seq<Byte>): (reports: seq<Report>)
    requires fr.Valid()
    ensures |reports| == |bytes|
  {
    seq(|bytes|, i requires 0 <= i < |bytes| => Got(Masked(fr, bytes[i])))
  }

  /** One sample keeps the pair linked, and what is reported plus what is pending grows by exactly the
      deliveries of what was pulled; so nothing is ever reported as an error. */
  lemma LinkStep(l: Link, buf: seq<Byte>)
    requires Linked(l)
    ensures var report := RxSample(l.r, l.t.level).1;
            && Linked(LinkNext(l, buf)) && LinkNext(l, buf).t.fr == l.t.fr
            && Reported(report) + Pending(LinkNext(l, buf)) == Pending(l) + Deliveries(l.t.fr, Pulled(l.t, buf))
            && (buf == Pulled(l.t, buf) + TxSample(l.t, buf).1)
  {
    hide Linked, RxSample, TxSample, Pending, Deliveries, Pulled, TxOk;
    PullsFromTheFront(l.t, buf);
    if l.r.stage.RxIdleMark? {
      RestingStep(l, buf);
    } else {
      InFlightStep(l, buf);
    }
  }

  lemma RestingStep(l: Link, buf: seq<Byte>)
    requires Linked(l) && l.r.stage.RxIdleMark?
    ensures var report := RxSample(l.r, l.t.level).1;
            && Linked(LinkNext(l, buf)) && report == Nothing
            && Pending(LinkNext(l, buf)) == Pending(l) + Deliveries(l.t.fr, Pulled(l.t, buf))
  {
    hide TxAdvance, RxAdvance, ParityOf, Masked, Fits;
    TxMovesOn(l.t, buf);
  }

  lemma InFlightStep(l: Link, buf: seq<Byte>)
    requires Linked(l) && !l.r.stage.RxIdleMark?
    ensures var report := RxSample(l.r, l.t.level).1;
            && Linked(LinkNext(l, buf))
            && Reported(report) + Pending(LinkNext(l, buf)) == Pending(l) + Deliveries(l.t.fr, Pulled(l.t, buf))
  {
    hide TxSample, RxSample, CellLevel, TxOk, RxRanges, Collected, Fits, Masked, InTime;
    LinkedParts(l);
    if l.r.phase + l.r.inc >= FULL {
      SamplesTheRightCell(l);
      SameLevel(l.t.fr, l.t.cur, Sampled(l.r), TxCell(l.t));
    }
    RxMovesOn(l.r, l.t.cur, l.t.level);
    TxMovesOn(l.t, buf);
    if RxPos(l.r) + l.r.inc < FULL * l.t.fr.Cells() {
      FrameGoesOn(l);
      NextInTime(l, LinkNext(l, buf));
    }
  }

  lemma LinkedParts(l: Link)
    requires Linked(l) && !l.r.stage.RxIdleMark?
    ensures l.t.level == CellLevel(l.t.fr, l.t.cur, TxCell(l.t)) && Sampled(l.r) < l.r.fr.Cells()
    ensures l.r.phase < FULL && 0 < l.r.inc < FULL && l.r.fr == l.t.fr
    ensures l.j >= 1 && l.phi < l.t.inc && InTime(l)
    ensures TxCell(l.t) >= l.t.fr.FirstStop() ==> l.t.stage.TxStop?
    ensures Fits(l.t.fr, l.t.inc, l.r.inc)
  {
  }

  lemma OneMore(j: int, x: int)
    ensures (j + 1) * x == j * x + x
  {
  }

  lemma NextInTime(l: Link, l': Link)
    requires InTime(l) && l'.j == l.j + 1 && l'.phi == l.phi && l'.t.inc == l.t.inc && l'.r.inc == l.r.inc
    requires TxPos(l'.t) == TxPos(l.t) + l.t.inc && RxPos(l'.r) == RxPos(l.r) + l.r.inc
    ensures InTime(l')
  {
    hide TxPos, RxPos;
    OneMore(l.j, l.t.inc);
    OneMore(l.j - 1, l.r.inc);
  }

  // ---- Runs ----

  datatype Sent = Sent(t: TxState, buf: seq<Byte>, levels: seq<bool>, pulled: seq<Byte>)

  /** The transmitter over a run of samples; before each one some bytes, or none, arrive in its queue. */
  function Transmit(t: TxState, buf: seq<Byte>, arrivals: seq<seq<Byte>>): (s: Sent)
    requires TxOk(t)
    ensures TxOk(s.t)
    decreases |arrivals|
  {
    hide TxOk, TxSample;
    if arrivals == [] then Sent(t, buf, [], [])
    else
      TxMovesOn(t, buf + arrivals[0]);
      var step := TxSample(t, buf + arrivals[0]);
      var rest := Transmit(step.0, step.1, arrivals[1..]);
      Sent(rest.t, rest.buf, [t.level] + rest.levels, Pulled(t, buf + arrivals[0]) + rest.pulled)
  }

  function Receive(r: RxState, levels: seq<bool>): (res: (RxState, seq<Report>))
    requires RxRanges(r)
    ensures RxRanges(res.0)
    decreases |levels|
  {
    hide RxRanges, RxSample;
    if levels == [] then (r, [])
    else
      var step := RxSample(r, levels[0]);
      var rest := Receive(step.0, levels[1..]);
      (rest.0, Reported(step.1) + rest.1)
  }

  function Flatten(arrivals: seq<seq<Byte>>): (bytes: seq<Byte>) {
    if arrivals == [] then [] else arrivals[0] + Flatten(arrivals[1..])
  }

  /** Nothing is lost or reordered on the way into the transmitter. */
  lemma {:induction false} PulledInOrder(t: TxState, buf: seq<Byte>, arrivals: seq<seq<Byte>>)
    requires TxOk(t)
    ensures var s := Transmit(t, buf, arrivals); s.pulled + s.buf == buf + Flatten(arrivals)
    decreases |arrivals|
  {
    hide TxOk, TxSample, Pulled;
    if arrivals != [] {
      var queue := buf + arrivals[0];
      TxMovesOn(t, queue);
      PullsFromTheFront(t, queue);
      var step := TxSample(t, queue);
      PulledInOrder(step.0, step.1, arrivals[1..]);
      var rest := Transmit(step.0, step.1, arrivals[1..]);
      Regroup(Pulled(t, queue), rest.pulled, rest.buf);
      Regroup(Pulled(t, queue), step.1, Flatten(arrivals[1..]));
      Regroup(buf, arrivals[0], Flatten(arrivals[1..]));
    } else {
      assert Flatten(arrivals) == [] && buf + [] == buf && [] + buf == buf;
    }
  }

  lemma DeliveriesJoin(fr: Framing, a: seq<Byte>, b: seq<Byte>)
    requires fr.Valid()
    ensures Deliveries(fr, a + b) == Deliveries(fr, a) + Deliveries(fr, b)
  {
    hide Masked;
  }

  lemma {:induction false} LinkRun(l: Link, buf: seq<Byte>, arrivals: seq<seq<Byte>>) returns (l': Link)
    requires Linked(l)
    ensures var s := Transmit(l.t, buf, arrivals);
            var got := Receive(l.r, s.levels);
            && Linked(l') && l'.t == s.t && l'.r == got.0 && l'.t.fr == l.t.fr
            && got.1 + Pending(l') == Pending(l) + Deliveries(l.t.fr, s.pulled)
    decreases |arrivals|
  {
    hide Linked, TxSample, RxSample, TxOk, RxRanges, Pending, Pulled, Masked, Deliveries;
    if arrivals == [] {
      l' := l;
      assert [] + Pending(l) == Pending(l) + [];
      assert |Deliveries(l.t.fr, [])| == 0;
    } else {
      var queue := buf + arrivals[0];
      LinkStep(l, queue);
      var next := LinkNext(l, queue);
      var step := TxSample(l.t, queue);
      l' := LinkRun(next, step.1, arrivals[1..]);
      var rest := Transmit(step.0, step.1, arrivals[1..]);
      var first := Pulled(l.t, queue);
      DeliveriesJoin(l.t.fr, first, rest.pulled);
      var report := Reported(RxSample(l.r, l.t.level).1);
      var got := Receive(next.r, rest.levels).1;
      assert (report + got) + Pending(l') == report + (got + Pending(l'));
      assert report + (Pending(next) + Deliveries(l.t.fr, rest.pulled))
             == (report + Pending(next)) + Deliveries(l.t.fr, rest.pulled);
      assert (Pending(l) + Deliveries(l.t.fr, first)) + Deliveries(l.t.fr, rest.pulled)
             == Pending(l) + (Deliveries(l.t.fr, first) + Deliveries(l.t.fr, rest.pulled));
      assert ([l.t.level] + rest.levels)[1..] == rest.levels;
    }
  }

  /** What a run from rest delivers: the bytes sent, masked to the data bits, in order and without an error, but for the
      one still on the line; and none is on the line once the transmitter is idle. */
  predicate Delivered(t: TxState, r: RxState, buf: seq<Byte>, arrivals: seq<seq<Byte>>)
    requires TxOk(t) && RxRanges(r)
  {
    var s := Transmit(t, buf, arrivals);
    var reports := Receive(r, s.levels).1;
    && (reports == Deliveries(t.fr, s.pulled)
        || (|s.pulled| > 0 && !s.t.stage.TxIdle? && reports == Deliveries(t.fr, s.pulled[..|s.pulled| - 1])))
    && s.pulled + s.buf == buf + Flatten(arrivals)
  }

  /** The FSK round trip: any framing, any bytes arriving at any times, any start residue of the transmitter's clock,
      any pair of increments that fits. */
  lemma RoundTrip(t: TxState, r: RxState, buf: seq<Byte>, arrivals: seq<seq<Byte>>)
    requires TxOk(t) && t.stage.TxIdle? && RxRanges(r) && r.stage.RxIdleMark?
    requires t.fr == r.fr && Fits(t.fr, t.inc, r.inc)
    ensures Delivered(t, r, buf, arrivals)
  {
    hide TxSample, RxSample, Masked, Transmit, Receive, Linked, Pending, Deliveries, TxOk, RxRanges, Fits;
    var s := Transmit(t, buf, arrivals);
    var start := Link(t, r, 0, 0);
    RestingLink(start);
    var l' := LinkRun(start, buf, arrivals);
    PulledInOrder(t, buf, arrivals);
    var reports := Receive(r, s.levels).1;
    var none: seq<Report> := [];
    assert none + Deliveries(t.fr, s.pulled) == Deliveries(t.fr, s.pulled);
    if Pending(l') == [] {
      assert reports + none == reports;
    } else {
      LastDelivery(t.fr, s.pulled, reports, Pending(l'));
    }
  }

  /** Idle at both ends: in step, with nothing on the line. */
  lemma RestingLink(l: Link)
    requires TxOk(l.t) && l.t.stage.TxIdle? && RxRanges(l.r) && l.r.stage.RxIdleMark?
    requires l.t.fr == l.r.fr && Fits(l.t.fr, l.t.inc, l.r.inc)
    ensures Linked(l) && Pending(l) == []
  {
    hide TxOk, RxRanges, Fits;
  }

  lemma LastDelivery(fr: Framing, bytes: seq<Byte>, reports: seq<Report>, last: seq<Report>)
    requires fr.Valid() && |last| == 1 && reports + last == Deliveries(fr, bytes)
    ensures |bytes| > 0 && reports == Deliveries(fr, bytes[..|bytes| - 1])
  {
    hide Masked;
    assert |bytes| == |reports| + 1;
    assert reports == (reports + last)[..|reports|];
  }

  // ---- A delay on the line ----

  lemma {:induction false} ReceiveInPieces(r: RxState, a: seq<bool>, b: seq<bool>)
    requires RxRanges(r)
    ensures var first := Receive(r, a);
            var second := Receive(first.0, b);
            Receive(r, a + b) == (second.0, first.1 + second.1)
    decreases |a|
  {
    hide RxRanges, RxSample, Reported;
    if a == [] {
      assert a + b == b;
      assert [] + Receive(r, b).1 == Receive(r, b).1;
    } else {
      var step := RxSample(r, a[0]);
      ReceiveInPieces(step.0, a[1..], b);
      assert (a + b)[1..] == a[1..] + b;
      var first := Receive(step.0, a[1..]);
      var second := Receive(first.0, b);
      Regroup(Reported(step.1), first.1, second.1);
    }
  }

  lemma {:induction false} IdleThroughMarks(r: RxState, n: nat)
    requires RxRanges(r) && r.stage.RxIdleMark?
    ensures Receive(r, Ones(n)) == (r, [])
    decreases n
  {
    if n > 0 {
      IdleThroughMarks(r, n - 1);
      assert Ones(n)[1..] == Ones(n - 1) && Ones(n)[0];
      var none: seq<Report> := [];
      assert none + none == none;
    } else {
      assert Ones(n) == [];
    }
  }

  /** Mark in front of the signal, that is any delay of the line, changes nothing. */
  lemma DelayChangesNothing(r: RxState, delay: nat, levels: seq<bool>)
    requires RxRanges(r) && r.stage.RxIdleMark?
    ensures Receive(r, Ones(delay) + levels) == Receive(r, levels)
  {
    hide RxRanges, Receive;
    IdleThroughMarks(r, delay);
    ReceiveInPieces(r, Ones(delay), levels);
    assert [] + Receive(r, levels).1 == Receive(r, levels).1;
  }

  // ---- Recovery ----

  /** Bit-clock rollovers on mark that a receiver needs to be idle again. */
  function Needed(r: RxState): (n: nat)
    requires RxRanges(r)
    ensures n <= 11
  {
    match r.stage
    case RxIdleMark => 0
    case RxStartValidate => 1
    case RxData => r.fr.dataBits - r.bitIndex + r.fr.ParityBits() + r.fr.stopBits
    case RxParity => 1 + r.fr.stopBits
    case RxStop => r.fr.stopBits - r.stopIndex
  }

  lemma MarkHelps(r: RxState)
    requires RxRanges(r) && !r.stage.RxIdleMark?
    ensures var (r', report) := RxSample(r, true);
            && (r'.stage.RxIdleMark? || FULL * Needed(r') - r'.phase == FULL * Needed(r) - r.phase - r.inc)
            && (report != Nothing ==> r'.stage.RxIdleMark?)
  {
    hide BitTick;
  }

  lemma {:induction false} MarksRecover(r: RxState, n: nat)
    requires RxRanges(r) && r.phase + n * r.inc >= FULL * Needed(r)
    ensures Receive(r, Ones(n)).0.stage.RxIdleMark? && |Receive(r, Ones(n)).1| <= 1
    decreases n
  {
    hide RxSample, RxRanges, BitTick;
    if r.stage.RxIdleMark? {
      IdleThroughMarks(r, n);
    } else {
      NeedIsReal(r, n);
      MarkHelps(r);
      var step := RxSample(r, true);
      assert Ones(n)[1..] == Ones(n - 1);
      if step.0.stage.RxIdleMark? {
        IdleThroughMarks(step.0, n - 1);
      } else {
        OneMore(n - 1, r.inc);
        MarksRecover(step.0, n - 1);
      }
    }
  }

  lemma NeedIsReal(r: RxState, n: nat)
    requires RxRanges(r) && !r.stage.RxIdleMark? && r.phase + n * r.inc >= FULL * Needed(r)
    ensures n > 0
  {
  }

  /** Recovery. From any state of the receiver, in the middle of any garbage, a stretch of mark worth eleven
      bit periods brings it back to idle with at most one byte or error reported; from then on every byte
      sent is received as in the round trip. */
  lemma Recovers(t: TxState, r: RxState, marks: nat, buf: seq<Byte>, arrivals: seq<seq<Byte>>)
    requires TxOk(t) && t.stage.TxIdle? && RxRanges(r) && t.fr == r.fr && Fits(t.fr, t.inc, r.inc)
    requires marks * r.inc >= 11 * FULL
    ensures var s := Transmit(t, buf, arrivals);
            var idle := Receive(r, Ones(marks));
            var reports := Receive(idle.0, s.levels).1;
            && idle.0.stage.RxIdleMark? && |idle.1| <= 1
            && Receive(r, Ones(marks) + s.levels).1 == idle.1 + reports
            && (s.t.stage.TxIdle? ==> reports == Deliveries(t.fr, s.pulled))
  {
    hide RxRanges, TxOk, Receive, Transmit, Fits, RxSample;
    var s := Transmit(t, buf, arrivals);
    MarksRecover(r, marks);
    var idle := Receive(r, Ones(marks)).0;
    ReceiveInPieces(r, Ones(marks), s.levels);
    SameLine(r, Ones(marks));
    RoundTrip(t, idle, buf, arrivals);
  }

  lemma {:induction false} SameLine(r: RxState, levels: seq<bool>)
    requires RxRanges(r)
    ensures Receive(r, levels).0.fr == r.fr && Receive(r, levels).0.inc == r.inc
    decreases |levels|
  {
    hide RxSample, RxRanges;
    if levels != [] {
      SameLine(RxSample(r, levels[0]).0, levels[1..]);
    }
  }
}
