/** What the FSK receive framer reports of a frame, whatever was on the line: error detection, exactly. */
module FskErrors {
  import opened ByteBits
  import opened FskFramer
  import opened FskRoundTrip
  import opened FskTolerance

  /** The level that the receiver's rollover for each cell of a frame falls on. */
  predicate Sees(fr: Framing, rxInc: nat, levels: seq<bool>, seen: seq<bool>)
    requires fr.Valid() && rxInc > 0
  {
    && |seen| == fr.Cells()
    && forall c | 0 <= c < |seen| :: Roll(c, rxInc) < |levels| && levels[Roll(c, rxInc)] == seen[c]
  }

  function DataBits(fr: Framing, seen: seq<bool>): (b: Byte)
    requires fr.Valid() && |seen| == fr.Cells()
  {
    seq(8, k requires 0 <= k < 8 => k < fr.dataBits && seen[1 + k])
  }

  /** The number of ones among the data and parity cells is even or odd as configured. */
  predicate ParityHolds(fr: Framing, seen: seq<bool>)
    requires fr.Valid() && |seen| == fr.Cells()
  {
    var ones := Count(DataBits(fr, seen), fr.dataBits) + if seen[1 + fr.dataBits] then 1 else 0;
    match fr.parity
    case NoParity => true
    case Even => ones % 2 == 0
    case Odd => ones % 2 == 1
  }

  /** The first cell from c on that is space. */
  function FirstSpace(seen: seq<bool>, c: nat): (space: nat)
    requires c <= |seen|
    ensures c <= space <= |seen| && (space < |seen| ==> !seen[space])
    ensures forall k | c <= k < space :: seen[k]
    decreases |seen| - c
  {
    if c == |seen| || !seen[c] then c else FirstSpace(seen, c + 1)
  }

  /** The cell that decides about a frame, and what is reported there: nothing for a start cell that is mark, an error
      for a wrong parity and for the first stop cell that is space, and otherwise the data bits at the last cell. */
  function Verdict(fr: Framing, seen: seq<bool>): (v: (nat, Report))
    requires fr.Valid() && |seen| == fr.Cells()
    ensures v.0 < |seen|
  {
    var space := FirstSpace(seen, fr.FirstStop());
    if seen[0] then (0, Nothing)
    else if !ParityHolds(fr, seen) then (1 + fr.dataBits, Error)
    else if space < |seen| then (space, Error)
    else (|seen| - 1, Got(DataBits(fr, seen)))
  }

  // ---- The framer gives this verdict ----

  lemma ParityIsRight(fr: Framing, seen: seq<bool>)
    requires fr.Valid() && |seen| == fr.Cells()
    ensures ParityHolds(fr, seen) <==> fr.parity.NoParity? || seen[1 + fr.dataBits] == ParityOf(fr, DataBits(fr, seen))
  {
    hide OddOnes, Count, DataBits;
    OddOnesCounts(DataBits(fr, seen), fr.dataBits);
  }

  /** Up to the cell that decides, a frame looks like that of its data bits; there it does if it is delivered. */
  lemma LooksRight(fr: Framing, seen: seq<bool>, k: nat)
    requires fr.Valid() && |seen| == fr.Cells()
    requires k <= Verdict(fr, seen).0
    ensures seen[k] == CellLevel(fr, DataBits(fr, seen), k)
            <==> k < Verdict(fr, seen).0 || Verdict(fr, seen).1.Got?
  {
    ParityIsRight(fr, seen);
    hide ParityHolds, ParityOf;
  }

  /** What the framer does at a rollover that ends a frame. */
  lemma LastRollover(r: RxState, b: Byte, level: bool)
    requires RxRanges(r) && !r.stage.RxIdleMark? && Collected(r, b) && r.phase + r.inc >= FULL
    ensures var (r', report) := RxSample(r, level);
            var c, right := Sampled(r), CellLevel(r.fr, b, Sampled(r));
            && (c == 0 && level != right ==> r'.stage.RxIdleMark? && report == Nothing)
            && (c > r.fr.dataBits && level != right ==> r'.stage.RxIdleMark? && report == Error)
            && (c + 1 == r.fr.Cells() && level == right ==> r'.stage.RxIdleMark? && report == Got(Masked(r.fr, b)))
  {
    hide Masked, OddOnes;
  }

  lemma DataBitsAreMasked(fr: Framing, seen: seq<bool>)
    requires fr.Valid() && |seen| == fr.Cells()
    ensures Masked(fr, DataBits(fr, seen)) == DataBits(fr, seen)
  {
  }

  lemma WhereItEnds(fr: Framing, seen: seq<bool>)
    requires fr.Valid() && |seen| == fr.Cells()
    ensures var (c, report) := Verdict(fr, seen);
            match report
            case Nothing => c == 0
            case Error => c > fr.dataBits
            case Got(b) => c + 1 == |seen| && b == DataBits(fr, seen)
  {
    hide ParityHolds, DataBits;
  }

  /** From idle, whatever the line does between the rollovers: the verdict on the cells seen is what is reported, at the
      rollover for the cell that decides, and the receiver is idle again. */
  lemma VerdictIs(r: RxState, levels: seq<bool>, seen: seq<bool>)
    requires RxRanges(r) && r.stage.RxIdleMark? && levels != [] && !levels[0] && Sees(r.fr, r.inc, levels, seen)
    ensures var (c, report) := Verdict(r.fr, seen);
            && Roll(c, r.inc) < |levels|
            && var (r', reports) := Receive(r, levels[..Roll(c, r.inc) + 1]);
               reports == Reported(report) && r'.stage.RxIdleMark? && r'.fr == r.fr && r'.inc == r.inc
  {
    hide Roll, Receive, CellLevel, Masked, DataBits, Verdict, Collected;
    var (c, report) := Verdict(r.fr, seen);
    var b, n := DataBits(r.fr, seen), Roll(c, r.inc);
    var line := levels[..n + 1];
    ReceiveOnce(r, line);
    RollBounds(c, r.inc);
    Begun(r, b);
    forall k | 0 <= k < c && 1 <= Roll(k, r.inc) < 1 + |line[1..]|
      ensures line[1..][Roll(k, r.inc) - 1] == CellLevel(r.fr, b, k)
    {
      LooksRight(r.fr, seen, k);
    }
    hide RxSample, OnTime, RxRanges;
    var r', m := GetsTo(RxSample(r, false).0, b, line[1..], 1, c);
    assert line[1..][m..] == [seen[c]];
    EndsThere(r', seen, line[1..][m..]);
  }

  lemma Begun(r: RxState, b: Byte)
    requires RxRanges(r) && r.stage.RxIdleMark?
    ensures RxSample(r, false).1 == Nothing && OnTime(RxSample(r, false).0, b, 1)
    ensures RxSample(r, false).0.fr == r.fr && RxSample(r, false).0.inc == r.inc
  {
  }

  lemma EndsThere(r: RxState, seen: seq<bool>, last: seq<bool>)
    requires RxRanges(r) && !r.stage.RxIdleMark? && |seen| == r.fr.Cells() && r.phase + r.inc >= FULL
    requires Collected(r, DataBits(r.fr, seen)) && Sampled(r) == Verdict(r.fr, seen).0 && last == [seen[Sampled(r)]]
    ensures var (r', reports) := Receive(r, last);
            && reports == Reported(Verdict(r.fr, seen).1)
            && r'.stage.RxIdleMark? && r'.fr == r.fr && r'.inc == r.inc
  {
    hide RxSample, CellLevel, Masked, DataBits, Verdict, Collected, Sampled;
    ReceiveOnce(r, last);
    LooksRight(r.fr, seen, Sampled(r));
    LastRollover(r, DataBits(r.fr, seen), last[0]);
    DataBitsAreMasked(r.fr, seen);
    WhereItEnds(r.fr, seen);
  }

  // ---- One wrong cell ----

  /** Turning one bit round turns the parity round. */
  lemma {:induction false} OneBitTurned(b: Byte, b': Byte, k: int, n: nat)
    requires n <= 8 && forall i | 0 <= i < n :: b'[i] == (b[i] != (i == k))
    ensures OddOnes(b', n) == (OddOnes(b, n) != (0 <= k < n))
  {
    if n > 0 {
      OneBitTurned(b, b', k, n - 1);
    }
  }

  /** One cell of a frame read wrong, or none if wrong is the number of cells: with parity every such error is detected,
      at the parity cell or at the stop cell itself; without parity a wrong data cell turns that bit round. */
  lemma OneCellWrong(fr: Framing, b: Byte, seen: seq<bool>, wrong: nat)
    requires fr.Valid() && |seen| == fr.Cells() && wrong <= fr.Cells()
    requires forall k | 0 <= k < |seen| :: seen[k] == (CellLevel(fr, b, k) != (k == wrong))
    ensures Verdict(fr, seen)
            == if wrong == 0 then (0, Nothing)
               else if fr.FirstStop() <= wrong < |seen| then (wrong, Error)
               else if wrong < |seen| && !fr.parity.NoParity? then (1 + fr.dataBits, Error)
               else (|seen| - 1, Got(if wrong == |seen| then Masked(fr, b) else Turned(Masked(fr, b), wrong - 1)))
  {
    ParityNotices(fr, b, seen, wrong);
    if wrong > 0 {
      WhatIsTaken(fr, b, seen, wrong);
    }
    hide ParityHolds, OddOnes, DataBits, Masked, ParityOf, Turned;
    assert !CellLevel(fr, b, 0);
    forall k | fr.FirstStop() <= k < |seen| ensures seen[k] == (k != wrong) {
      assert CellLevel(fr, b, k);
    }
    OnlySpace(seen, fr.FirstStop(), wrong);
    assert seen[0] == (wrong == 0);
  }

  lemma {:induction false} OnlySpace(seen: seq<bool>, c: nat, wrong: nat)
    requires c <= |seen| && wrong <= |seen| && forall k | c <= k < |seen| :: seen[k] == (k != wrong)
    ensures FirstSpace(seen, c) == if c <= wrong then wrong else |seen|
    decreases |seen| - c
  {
    if c < |seen| && c != wrong {
      OnlySpace(seen, c + 1, wrong);
    }
  }

  lemma ParityNotices(fr: Framing, b: Byte, seen: seq<bool>, wrong: nat)
    requires fr.Valid() && |seen| == fr.Cells() && wrong <= fr.Cells()
    requires forall k | 0 <= k < |seen| :: seen[k] == (CellLevel(fr, b, k) != (k == wrong))
    ensures ParityHolds(fr, seen) <==> fr.parity.NoParity? || !(0 < wrong < fr.FirstStop())
  {
    ParityIsRight(fr, seen);
    OneBitTurned(b, DataBits(fr, seen), wrong - 1, fr.dataBits);
    hide ParityHolds, OddOnes, DataBits;
  }

  function Turned(b: Byte, k: nat): (b': Byte)
    requires k < 8
  {
    b[k := !b[k]]
  }

  lemma WhatIsTaken(fr: Framing, b: Byte, seen: seq<bool>, wrong: nat)
    requires fr.Valid() && |seen| == fr.Cells() && 0 < wrong <= fr.Cells()
    requires forall k | 0 <= k < |seen| :: seen[k] == (CellLevel(fr, b, k) != (k == wrong))
    ensures DataBits(fr, seen) == if wrong <= fr.dataBits then Turned(Masked(fr, b), wrong - 1) else Masked(fr, b)
  {
  }
}
