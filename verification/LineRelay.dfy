/** The line simulator's relay: an elastic ring FIFO, bounded clock slip, and blocks of equal size in and out.
    The samples a channel's signal processing produces, and the random draws of the slip stage, are inputs. */
module LineRelay {
  import opened Sequences

  const CAPACITY := 512
  const SLIP_MAX := 10
  const BLOCK := 40

  // ---- FIFO ----

  /** What remains of a sequence when only the newest CAPACITY elements are kept. */
  function Newest(s: seq<int>): (r: seq<int>)
    ensures |r| <= CAPACITY
  {
    if |s| <= CAPACITY then s else s[|s| - CAPACITY..]
  }

  lemma NothingAdded(s: seq<int>, v: int)
    requires |s| <= CAPACITY
    ensures Newest(s + Repeat(v, 0)) == s
  {
    assert s + Repeat(v, 0) == s;
  }

  lemma NewestOfNewest(s: seq<int>, t: seq<int>)
    ensures Newest(Newest(s) + t) == Newest(s + t)
  {
    if |s| > CAPACITY {
      var head, rest := s[..|s| - CAPACITY], Newest(s) + t;
      assert s + t == head + rest;
      var from := |rest| - CAPACITY;
      assert Newest(rest) == rest[from..] && Newest(s + t) == (s + t)[|head| + from..];
      assert (head + rest)[|head| + from..] == rest[from..];
    }
  }

  /** The place i steps after head in the ring. */
  function Slot(head: nat, i: nat): (k: nat)
    requires head < CAPACITY && i <= CAPACITY
    ensures k < CAPACITY
  {
    if head + i < CAPACITY then head + i else head + i - CAPACITY
  }

  class Fifo {
    const buf: array<int>
    var head: nat
    var tail: nat
    var count: nat
    ghost var Contents: seq<int>

    ghost predicate Valid()
      reads this, buf
    {
      && buf.Length == CAPACITY && head < CAPACITY && count <= CAPACITY && tail == Slot(head, count)
      && |Contents| == count && forall i | 0 <= i < count :: Contents[i] == buf[Slot(head, i)]
    }

    constructor ()
      ensures Valid() && fresh(buf) && Contents == []
    {
      buf := new int[CAPACITY];
      head, tail, count := 0, 0, 0;
      Contents := [];
    }

    /** A full FIFO drops its oldest sample to make room. */
    method Push(v: int)
      requires Valid()
      modifies this, buf
      ensures Valid() && Contents == Newest(old(Contents) + [v])
    {
      if count >= CAPACITY {
        head := (head + 1) % CAPACITY;
        count := count - 1;
        Contents := Contents[1..];
      }
      buf[tail] := v;
      tail := (tail + 1) % CAPACITY;
      count := count + 1;
      Contents := Contents + [v];
    }

    method Take() returns (v: int)
      requires Valid() && count > 0
      modifies this
      ensures Valid() && [v] + Contents == old(Contents)
    {
      v := buf[head];
      head := (head + 1) % CAPACITY;
      count := count - 1;
      Contents := Contents[1..];
    }

    method Pop(n: nat) returns (out: seq<int>)
      requires Valid()
      modifies this
      ensures Valid() && out + Contents == old(Contents)
      ensures |out| == if n <= |old(Contents)| then n else |old(Contents)|
    {
      hide Slot;
      out := [];
      while |out| < n && count > 0
        invariant Valid() && |out| <= n && out + Contents == old(Contents)
      {
        ghost var before := Contents;
        var v := Take();
        assert out + ([v] + Contents) == (out + [v]) + Contents;
        out := out + [v];
      }
    }
  }

  // ---- Clock slip ----

  /** The outcome of the two random draws for one output sample. */
  datatype Draw = NoSlip | Slip(wantDup: bool)

  /** How often a sample is emitted, 0, 1 or 2 times, and the running balance of emissions. When the wanted slip would
      exceed the bound the opposite one is made. */
  function Emission(accum: int, draw: Draw): (r: (nat, int)) {
    if draw.NoSlip? then (1, accum)
    else if draw.wantDup && accum < SLIP_MAX then (2, accum + 1)
    else if !draw.wantDup && accum > -SLIP_MAX then (0, accum - 1)
    else if draw.wantDup && accum > -SLIP_MAX then (0, accum - 1)
    else (2, accum + 1)
  }

  function Repeat(v: int, n: nat): (s: seq<int>)
    ensures |s| == n
  {
    seq(n, _ => v)
  }

  predicate Bounded(accum: int) {
    -SLIP_MAX <= accum <= SLIP_MAX
  }

  /** Within the bound every slip is honoured one way or the other; the source's last branch, for both bounds
      hit at once, cannot be reached. */
  lemma EmissionStaysBounded(accum: int, draw: Draw)
    requires Bounded(accum)
    ensures var (n, accum') := Emission(accum, draw);
            Bounded(accum') && n <= 2 && accum' == accum + n - 1 && (draw.Slip? <==> n != 1)
  {
  }

  /** Everything emitted for a sequence of processed samples, and the balance afterwards. */
  function EmitAll(accum: int, vs: seq<int>, draws: seq<Draw>): (r: (seq<int>, int))
    requires |vs| == |draws|
    decreases |vs|
  {
    if vs == [] then ([], accum)
    else
      var e := Emission(accum, draws[0]);
      var rest := EmitAll(e.1, vs[1..], draws[1..]);
      (Repeat(vs[0], e.0) + rest.0, rest.1)
  }

  /** Conservation: the balance counts the emitted samples against the processed ones. */
  lemma {:induction false} EmitAllConserves(accum: int, vs: seq<int>, draws: seq<Draw>)
    requires |vs| == |draws| && Bounded(accum)
    ensures var (out, accum') := EmitAll(accum, vs, draws);
            Bounded(accum') && |out| == |vs| + accum' - accum
    decreases |vs|
  {
    if vs != [] {
      EmissionStaysBounded(accum, draws[0]);
      EmitAllConserves(Emission(accum, draws[0]).1, vs[1..], draws[1..]);
    }
  }

  lemma {:induction false} EmitAllInPieces(accum: int, vs: seq<int>, draws: seq<Draw>, ws: seq<int>, more: seq<Draw>)
    requires |vs| == |draws| && |ws| == |more|
    ensures |vs + ws| == |draws + more|
    ensures var (out, mid) := EmitAll(accum, vs, draws);
            var (out', end) := EmitAll(mid, ws, more);
            EmitAll(accum, vs + ws, draws + more) == (out + out', end)
    decreases |vs|
  {
    hide Emission, Repeat;
    if vs == [] {
      assert vs + ws == ws && draws + more == more;
      assert [] + EmitAll(accum, ws, more).0 == EmitAll(accum, ws, more).0;
    } else {
      var e := Emission(accum, draws[0]);
      EmitAllInPieces(e.1, vs[1..], draws[1..], ws, more);
      assert (vs + ws)[1..] == vs[1..] + ws && (draws + more)[1..] == draws[1..] + more;
      var (out, mid) := EmitAll(e.1, vs[1..], draws[1..]);
      var out' := EmitAll(mid, ws, more).0;
      Regroup(Repeat(vs[0], e.0), out, out');
    }
  }

  /** Each processed sample is emitted zero, one or two times, in order. */
  predicate Slipped(vs: seq<int>, out: seq<int>)
    decreases |vs|
  {
    if vs == [] then out == []
    else exists n | 0 <= n <= 2 && n <= |out| :: out[..n] == Repeat(vs[0], n) && Slipped(vs[1..], out[n..])
  }

  lemma {:induction false} EmitAllSlips(accum: int, vs: seq<int>, draws: seq<Draw>)
    requires |vs| == |draws|
    ensures Slipped(vs, EmitAll(accum, vs, draws).0)
    decreases |vs|
  {
    if vs != [] {
      var e := Emission(accum, draws[0]);
      EmitAllSlips(e.1, vs[1..], draws[1..]);
      var out := EmitAll(accum, vs, draws).0;
      var rest := EmitAll(e.1, vs[1..], draws[1..]).0;
      assert out[..e.0] == Repeat(vs[0], e.0) && out[e.0..] == rest;
    }
  }

  /** What a draw asks for: one emission more, or one less. */
  function Want(draw: Draw): (w: int)
    ensures -1 <= w <= 1
  {
    if draw.NoSlip? then 0 else if draw.wantDup then 1 else -1
  }

  /** The balance that is asked for never leaves the bounds. */
  predicate InRoom(accum: int, draws: seq<Draw>)
    decreases |draws|
  {
    draws == [] || (Bounded(accum + Want(draws[0])) && InRoom(accum + Want(draws[0]), draws[1..]))
  }

  /** How often each sample of a run is emitted. */
  function Counts(accum: int, draws: seq<Draw>): (counts: seq<nat>)
    ensures |counts| == |draws|
    decreases |draws|
  {
    if draws == [] then []
    else
      var e := Emission(accum, draws[0]);
      [e.0] + Counts(e.1, draws[1..])
  }

  function Expanded(vs: seq<int>, counts: seq<nat>): (out: seq<int>)
    requires |vs| == |counts|
    decreases |vs|
  {
    if vs == [] then [] else Repeat(vs[0], counts[0]) + Expanded(vs[1..], counts[1..])
  }

  /** A wanted duplicate is emitted twice and a wanted drop not at all as long as there is room; at a bound a draw
      further outward is turned round. */
  lemma DrawHonoured(accum: int, draw: Draw)
    requires Bounded(accum)
    ensures var (n, accum') := Emission(accum, draw);
            if Bounded(accum + Want(draw)) then n == 1 + Want(draw) && accum' == accum + Want(draw)
            else n == 1 - Want(draw) && accum' == accum - Want(draw)
  {
  }

  /** Every sample is emitted as often as its draw asks for. */
  predicate Honoured(counts: seq<nat>, draws: seq<Draw>)
    requires |counts| == |draws|
  {
    forall i | 0 <= i < |draws| :: counts[i] == 1 + Want(draws[i])
  }

  lemma HonouredFirst(n: nat, rest: seq<nat>, draws: seq<Draw>)
    requires 1 + |rest| == |draws|
    ensures Honoured([n] + rest, draws) <==> n == 1 + Want(draws[0]) && Honoured(rest, draws[1..])
  {
    hide Want;
    var counts := [n] + rest;
    assert forall i | 0 <= i < |rest| :: counts[i + 1] == rest[i] && draws[i + 1] == draws[1..][i];
    assert forall i | 0 < i < |draws| :: counts[i] == rest[i - 1] && draws[i] == draws[1..][i - 1];
  }

  /** Every draw of a run is honoured if and only if the balance asked for stays within its bounds throughout. */
  lemma {:induction false} HonouredExactly(accum: int, draws: seq<Draw>)
    requires Bounded(accum)
    ensures Honoured(Counts(accum, draws), draws) <==> InRoom(accum, draws)
    decreases |draws|
  {
    hide Emission, Want, Honoured;
    if draws == [] {
      assert Honoured([], []) by { NothingToHonour(); }
    } else {
      DrawHonoured(accum, draws[0]);
      var e := Emission(accum, draws[0]);
      HonouredFirst(e.0, Counts(e.1, draws[1..]), draws);
      if Bounded(accum + Want(draws[0])) {
        HonouredExactly(e.1, draws[1..]);
      }
    }
  }

  lemma NothingToHonour()
    ensures Honoured([], [])
  {
  }

  function WantedSum(draws: seq<Draw>): (sum: int) {
    if draws == [] then 0 else Want(draws[0]) + WantedSum(draws[1..])
  }

  /** What is emitted is every sample as often as its count says; with room for all draws that is the number of samples
      plus the wanted duplicates less the wanted drops. */
  lemma {:induction false} EmittedByCount(accum: int, vs: seq<int>, draws: seq<Draw>)
    requires |vs| == |draws| && Bounded(accum)
    ensures EmitAll(accum, vs, draws).0 == Expanded(vs, Counts(accum, draws))
    ensures InRoom(accum, draws) ==> EmitAll(accum, vs, draws).1 == accum + WantedSum(draws)
                                     && |EmitAll(accum, vs, draws).0| == |vs| + WantedSum(draws)
    decreases |vs|
  {
    hide Emission, Repeat;
    if vs != [] {
      DrawHonoured(accum, draws[0]);
      EmittedByCount(Emission(accum, draws[0]).1, vs[1..], draws[1..]);
    }
  }

  // ---- One direction ----

  /** The channel's slip stage and its sample counting; the filters between are not part of this model. */
  class Channel {
    const factor: nat        // internal samples per external sample
    const slips: bool        // slip probability above zero
    var downPhase: nat
    var accum: int
    var slipMin: int
    var slipMax: int

    ghost predicate Valid()
      reads this
    {
      factor > 0 && downPhase == 0 && Bounded(accum) && (!slips ==> accum == 0)
    }

    constructor (ratio: nat, slipping: bool)
      requires ratio > 0
      ensures Valid() && factor == ratio && slips == slipping && accum == 0
    {
      factor, slips, downPhase, accum, slipMin, slipMax := ratio, slipping, 0, 0, 0, 0;
    }

    method PushTwice(v: int, out: Fifo)
      requires out.Valid()
      modifies out, out.buf
      ensures out.Valid() && out.Contents == Newest(old(out.Contents) + Repeat(v, 2))
    {
      hide Newest, Slot;
      out.Push(v);
      out.Push(v);
      NewestOfNewest(old(out.Contents) + [v], [v]);
      assert (old(out.Contents) + [v]) + [v] == old(out.Contents) + Repeat(v, 2);
    }

    method EmitWithSlip(v: int, draw: Draw, out: Fifo)
      requires out.Valid() && Bounded(accum)
      modifies this`accum, this`slipMin, this`slipMax, out, out.buf
      ensures out.Valid()
      ensures var e := Emission(old(accum), if slips then draw else NoSlip);
              out.Contents == Newest(old(out.Contents) + Repeat(v, e.0)) && accum == e.1
    {
      hide Newest, Slot;
      NothingAdded(out.Contents, v) by { assert |out.Contents| <= CAPACITY; }
      if slips && draw.Slip? {
        if draw.wantDup && accum < SLIP_MAX {
          PushTwice(v, out);
          accum := accum + 1;
        } else if !draw.wantDup && accum > -SLIP_MAX {
          accum := accum - 1;
        } else if draw.wantDup && accum > -SLIP_MAX {
          accum := accum - 1;
        } else if !draw.wantDup && accum < SLIP_MAX {
          PushTwice(v, out);
          accum := accum + 1;
        } else {
          assert false;  // both bounds hit at once
        }
        if accum < slipMin { slipMin := accum; }
        if accum > slipMax { slipMax := accum; }
        return;
      }
      out.Push(v);
      assert [v] == Repeat(v, 1);
    }

    /** chan_process: every external sample makes factor internal samples, and every factor-th of these makes one
        external sample again, which passes the slip stage. */
    method Process(vs: seq<int>, draws: seq<Draw>, out: Fifo)
      requires Valid() && out.Valid() && |vs| == |draws|
      modifies this, out, out.buf
      ensures Valid() && out.Valid()
      ensures var e := EmitAll(old(accum), vs, if slips then draws else Steady(|vs|));
              out.Contents == Newest(old(out.Contents) + e.0) && accum == e.1
    {
      hide Newest, Slot, Emission, EmitAll;
      ghost var q, acc := out.Contents, accum;
      ghost var ds := if slips then draws else Steady(|vs|);
      EmitNothing(q, acc, vs, ds);
      for i := 0 to |vs|
        invariant Valid() && out.Valid()
        invariant out.Contents == Newest(q + EmitAll(acc, vs[..i], ds[..i]).0)
        invariant accum == EmitAll(acc, vs[..i], ds[..i]).1
      {
        label before:
        EmissionStaysBounded(accum, ds[i]);
        for j := 0 to factor
          invariant out.Valid()
          invariant if j < factor then
                      downPhase == j && accum == old@before(accum) && out.Contents == old@before(out.Contents)
                    else downPhase == 0 && var e := Emission(old@before(accum), ds[i]);
                         accum == e.1 && out.Contents == Newest(old@before(out.Contents) + Repeat(vs[i], e.0))
        {
          downPhase := downPhase + 1;
          if !(downPhase < factor) {
            downPhase := 0;
            EmitWithSlip(vs[i], draws[i], out);
          }
        }
        EmitOneMore(q, acc, vs, ds, i);
      }
      assert vs[..|vs|] == vs && ds[..|vs|] == ds;
    }
  }

  function Steady(n: nat): (draws: seq<Draw>)
    ensures |draws| == n
  {
    seq(n, _ => NoSlip)
  }

  lemma EmitNothing(q: seq<int>, acc: int, vs: seq<int>, ds: seq<Draw>)
    requires |q| <= CAPACITY && |vs| == |ds|
    ensures Newest(q + EmitAll(acc, vs[..0], ds[..0]).0) == q && EmitAll(acc, vs[..0], ds[..0]).1 == acc
  {
    assert q + [] == q;
  }

  lemma EmitOneMore(q: seq<int>, acc: int, vs: seq<int>, ds: seq<Draw>, i: nat)
    requires i < |vs| == |ds|
    ensures var (out, mid) := EmitAll(acc, vs[..i], ds[..i]);
            var e := Emission(mid, ds[i]);
            && EmitAll(acc, vs[..i + 1], ds[..i + 1]) == (out + Repeat(vs[i], e.0), e.1)
            && Newest(Newest(q + out) + Repeat(vs[i], e.0)) == Newest(q + (out + Repeat(vs[i], e.0)))
  {
    hide Newest, Emission;
    var (out, mid) := EmitAll(acc, vs[..i], ds[..i]);
    EmitAllInPieces(acc, vs[..i], ds[..i], [vs[i]], [ds[i]]);
    assert vs[..i] + [vs[i]] == vs[..i + 1] && ds[..i] + [ds[i]] == ds[..i + 1];
    var e := Emission(mid, ds[i]);
    assert EmitAll(mid, [vs[i]], [ds[i]]) == (Repeat(vs[i], e.0), e.1) by {
      assert [vs[i]][1..] == [] && [ds[i]][1..] == [];
      assert EmitAll(e.1, [], []) == ([], e.1);
      assert Repeat(vs[i], e.0) + [] == Repeat(vs[i], e.0);
    }
    NewestOfNewest(q + out, Repeat(vs[i], e.0));
    assert (q + out) + Repeat(vs[i], e.0) == q + (out + Repeat(vs[i], e.0));
  }

  // ---- The relay ----

  function DrawsOf(slips: bool, draws: seq<Draw>): (ds: seq<Draw>)
    ensures |ds| == |draws|
  {
    if slips then draws else Steady(|draws|)
  }

  /** A block off the front of the FIFO, filled up with zeros on underflow, and what stays in the FIFO. */
  function PopBlock(q: seq<int>): (r: (seq<int>, seq<int>))
    ensures |r.0| == BLOCK
  {
    if |q| >= BLOCK then (q[..BLOCK], q[BLOCK..]) else (q + Repeat(0, BLOCK - |q|), [])
  }

  /** On underflow what there is comes first and zeros follow; nothing is lost or kept back either way. */
  lemma PopFillsUp(q: seq<int>)
    ensures var (out, left) := PopBlock(q);
            && (forall i | 0 <= i < BLOCK :: out[i] == if i < |q| then q[i] else 0)
            && (if |q| < BLOCK then left == [] else out + left == q)
  {
  }

  /** One direction in one round: process a block, deliver a block.
      Returns the FIFO contents, the balance and the delivered block. */
  function Round(q: seq<int>, accum: int, vs: seq<int>, ds: seq<Draw>): (r: (seq<int>, int, seq<int>))
    requires |vs| == |ds|
    ensures |r.2| == BLOCK && r.1 == EmitAll(accum, vs, ds).1
  {
    var e := EmitAll(accum, vs, ds);
    var (out, left) := PopBlock(Newest(q + e.0));
    (left, e.1, out)
  }

  /** The elastic store: a cushion of one block, or none when nothing can slip, plus the balance. */
  predicate Cushioned(cushion: nat, slips: bool, q: seq<int>, accum: int) {
    && (cushion == BLOCK || (cushion == 0 && !slips))
    && Bounded(accum) && (!slips ==> accum == 0) && |q| == cushion + accum
  }

  lemma {:induction false} SteadyNeverSlips(accum: int, vs: seq<int>, n: nat)
    requires |vs| == n
    ensures EmitAll(accum, vs, Steady(n)).1 == accum
    decreases n
  {
    if n > 0 {
      assert Steady(n)[1..] == Steady(n - 1);
      SteadyNeverSlips(accum, vs[1..], n - 1);
    }
  }

  /** In a round neither the overflow drop nor the underflow padding fires: what was in the FIFO and what was
      emitted is delivered in order, and the cushion is restored. */
  lemma RoundConserves(cushion: nat, slips: bool, q: seq<int>, accum: int, vs: seq<int>, draws: seq<Draw>)
    requires Cushioned(cushion, slips, q, accum) && |vs| == |draws| == BLOCK
    ensures var ds := DrawsOf(slips, draws);
            var e := EmitAll(accum, vs, ds);
            var (q', accum', out) := Round(q, accum, vs, ds);
            && Newest(q + e.0) == q + e.0 && |q + e.0| >= BLOCK
            && out + q' == q + e.0 && Cushioned(cushion, slips, q', accum')
  {
    hide EmitAll;
    EmitAllConserves(accum, vs, DrawsOf(slips, draws));
    if !slips {
      SteadyNeverSlips(accum, vs, BLOCK);
    }
  }

  datatype Block = Block(vs: seq<int>, draws: seq<Draw>) {
    predicate Valid() {
      |vs| == |draws| == BLOCK
    }
  }

  predicate AllValid(blocks: seq<Block>) {
    forall i | 0 <= i < |blocks| :: blocks[i].Valid()
  }

  /** Any number of rounds; the delivered blocks are joined up. */
  function Rounds(slips: bool, q: seq<int>, accum: int, blocks: seq<Block>): (r: (seq<int>, int, seq<int>))
    requires AllValid(blocks)
    decreases |blocks|
  {
    if blocks == [] then (q, accum, [])
    else
      var first := Round(q, accum, blocks[0].vs, DrawsOf(slips, blocks[0].draws));
      var rest := Rounds(slips, first.0, first.1, blocks[1..]);
      (rest.0, rest.1, first.2 + rest.2)
  }

  function Joined(slips: bool, blocks: seq<Block>): (r: (seq<int>, seq<Draw>))
    requires AllValid(blocks)
    ensures |r.0| == |r.1| == BLOCK * |blocks|
    decreases |blocks|
  {
    if blocks == [] then ([], [])
    else
      var rest := Joined(slips, blocks[1..]);
      (blocks[0].vs + rest.0, DrawsOf(slips, blocks[0].draws) + rest.1)
  }

  /** Lockstep conservation over any number of rounds and any slip outcome: one block out for every block in,
      and the delivered samples followed by the FIFO are the FIFO at the start followed by the processed
      samples as emitted, in order. */
  lemma {:induction false} RelayConserves(cushion: nat, slips: bool, q: seq<int>, accum: int, blocks: seq<Block>)
    requires Cushioned(cushion, slips, q, accum) && AllValid(blocks)
    ensures var (q', accum', delivered) := Rounds(slips, q, accum, blocks);
            var (vs, ds) := Joined(slips, blocks);
            var e := EmitAll(accum, vs, ds);
            && |delivered| == BLOCK * |blocks|
            && delivered + q' == q + e.0 && accum' == e.1
            && Cushioned(cushion, slips, q', accum')
    decreases |blocks|
  {
    hide EmitAll, Round, Cushioned, DrawsOf;
    if blocks == [] {
      assert EmitAll(accum, [], []) == ([], accum) by { EmitNone(accum); }
      assert [] + q == q + [];
    } else {
      var b, ds := blocks[0], DrawsOf(slips, blocks[0].draws);
      var first := Round(q, accum, b.vs, ds);
      assert b.Valid();
      RoundConserves(cushion, slips, q, accum, b.vs, b.draws);
      RelayConserves(cushion, slips, first.0, first.1, blocks[1..]);
      var (vs, more) := Joined(slips, blocks[1..]);
      EmitAllInPieces(accum, b.vs, ds, vs, more);
      var e, e' := EmitAll(accum, b.vs, ds), EmitAll(first.1, vs, more);
      var rest := Rounds(slips, first.0, first.1, blocks[1..]);
      assert (first.2 + rest.2) + rest.0 == first.2 + (rest.2 + rest.0);
      assert first.2 + (first.0 + e'.0) == (first.2 + first.0) + e'.0;
      assert (q + e.0) + e'.0 == q + (e.0 + e'.0);
    }
  }

  lemma EmitNone(accum: int)
    ensures EmitAll(accum, [], []) == ([], accum)
  {
  }

  /** The start: with slip configured in either direction both FIFOs are primed with one processed block of
      silence, otherwise they stay empty. */
  lemma PrimingCushions(slips: bool, other: bool, prime: Block)
    requires prime.Valid()
    ensures slips || other ==>
              var e := EmitAll(0, prime.vs, DrawsOf(slips, prime.draws));
              Newest([] + e.0) == e.0 && Cushioned(BLOCK, slips, e.0, e.1)
    ensures !slips && !other ==> Cushioned(0, slips, [], 0)
  {
    hide EmitAll;
    EmitAllConserves(0, prime.vs, DrawsOf(slips, prime.draws));
    if !slips {
      SteadyNeverSlips(0, prime.vs, BLOCK);
    }
  }

  /** One direction of the relay in place: a channel and the FIFO it feeds. */
  class Direction {
    const chan: Channel
    const fifo: Fifo

    ghost predicate Valid()
      reads this, chan, fifo, fifo.buf
    {
      chan.Valid() && fifo.Valid()
    }

    constructor (ratio: nat, slipping: bool)
      requires ratio > 0
      ensures Valid() && fresh(chan) && fresh(fifo) && fresh(fifo.buf)
      ensures chan.slips == slipping && chan.accum == 0 && fifo.Contents == []
    {
      chan := new Channel(ratio, slipping);
      fifo := new Fifo();
    }

    /** Process the silent block that primes the FIFO. */
    method Prime(prime: Block)
      requires Valid() && prime.Valid() && chan.accum == 0 && fifo.Contents == []
      modifies chan, fifo, fifo.buf
      ensures Valid()
      ensures var e := EmitAll(0, prime.vs, DrawsOf(chan.slips, prime.draws));
              fifo.Contents == Newest([] + e.0) && chan.accum == e.1
    {
      chan.Process(prime.vs, prime.draws, fifo);
    }

    method ProcessBlock(b: Block)
      requires Valid() && b.Valid()
      modifies chan, fifo, fifo.buf
      ensures Valid()
      ensures var e := EmitAll(old(chan.accum), b.vs, DrawsOf(chan.slips, b.draws));
              fifo.Contents == Newest(old(fifo.Contents) + e.0) && chan.accum == e.1
    {
      chan.Process(b.vs, b.draws, fifo);
    }

    /** Deliver one block, padded with zeros should the FIFO run dry. */
    method Deliver() returns (out: seq<int>)
      requires Valid()
      modifies fifo
      ensures Valid()
      ensures (out, fifo.Contents) == PopBlock(old(fifo.Contents))
    {
      hide Slot;
      ghost var q1 := fifo.Contents;
      out := fifo.Pop(BLOCK);
      ghost var got := |out|;
      assert out == q1[..got] && fifo.Contents == q1[got..];
      while |out| < BLOCK
        invariant got <= |out| <= BLOCK && out == q1[..got] + Repeat(0, |out| - got)
      {
        out := out + [0];
      }
    }
  }

  function Ahead(done: seq<int>, r: (seq<int>, int, seq<int>)): (r': (seq<int>, int, seq<int>)) {
    (r.0, r.1, done + r.2)
  }

  lemma RoundsUnfold(slips: bool, q: seq<int>, accum: int, blocks: seq<Block>, done: seq<int>)
    requires AllValid(blocks)
    ensures if blocks == [] then Ahead(done, Rounds(slips, q, accum, blocks)) == (q, accum, done)
            else var first := Round(q, accum, blocks[0].vs, DrawsOf(slips, blocks[0].draws));
                 Ahead(done, Rounds(slips, q, accum, blocks))
                 == Ahead(done + first.2, Rounds(slips, first.0, first.1, blocks[1..]))
  {
    hide Round, DrawsOf;
    if blocks == [] {
      assert done + [] == done;
    } else {
      var first := Round(q, accum, blocks[0].vs, DrawsOf(slips, blocks[0].draws));
      var rest := Rounds(slips, first.0, first.1, blocks[1..]);
      assert done + (first.2 + rest.2) == (done + first.2) + rest.2;
    }
  }

  /** FIFO contents and balance when the rounds begin. */
  function Primed(slips: bool, slipAny: bool, prime: Block): (r: (seq<int>, int))
    requires prime.Valid()
  {
    if slipAny then EmitAll(0, prime.vs, DrawsOf(slips, prime.draws)) else ([], 0)
  }

  /** Everything a direction ever emits: the priming block, if any, and then every processed block. */
  function EmittedFrom(slips: bool, slipAny: bool, prime: Block, blocks: seq<Block>): (out: seq<int>)
    requires prime.Valid() && AllValid(blocks)
  {
    var start := Primed(slips, slipAny, prime);
    var joined := Joined(slips, blocks);
    start.0 + EmitAll(start.1, joined.0, joined.1).0
  }

  lemma Delivers(slips: bool, other: bool, prime: Block, blocks: seq<Block>)
    requires prime.Valid() && AllValid(blocks)
    ensures var start := Primed(slips, slips || other, prime);
            var delivered := Rounds(slips, start.0, start.1, blocks).2;
            |delivered| == BLOCK * |blocks| && delivered <= EmittedFrom(slips, slips || other, prime, blocks)
  {
    hide EmitAll, Rounds, DrawsOf, Cushioned;
    var start := Primed(slips, slips || other, prime);
    PrimingCushions(slips, other, prime);
    RelayConserves(if slips || other then BLOCK else 0, slips, start.0, start.1, blocks);
    var r := Rounds(slips, start.0, start.1, blocks);
    assert r.2 == (r.2 + r.0)[..|r.2|];
  }

  /** One turn of the relay's loop: process both blocks, then deliver both. */
  method RelayRound(a2b: Direction, b2a: Direction, fromA: Block, fromB: Block) returns (toB: seq<int>, toA: seq<int>)
    requires a2b.Valid() && b2a.Valid() && fromA.Valid() && fromB.Valid()
    requires a2b.chan != b2a.chan && a2b.fifo != b2a.fifo && a2b.fifo.buf != b2a.fifo.buf
    modifies a2b.chan, a2b.fifo, a2b.fifo.buf, b2a.chan, b2a.fifo, b2a.fifo.buf
    ensures a2b.Valid() && b2a.Valid()
    ensures (a2b.fifo.Contents, a2b.chan.accum, toB)
            == Round(old(a2b.fifo.Contents), old(a2b.chan.accum), fromA.vs, DrawsOf(a2b.chan.slips, fromA.draws))
    ensures (b2a.fifo.Contents, b2a.chan.accum, toA)
            == Round(old(b2a.fifo.Contents), old(b2a.chan.accum), fromB.vs, DrawsOf(b2a.chan.slips, fromB.draws))
  {
    hide EmitAll, DrawsOf, Newest, Slot, PopBlock;
    a2b.ProcessBlock(fromA);
    b2a.ProcessBlock(fromB);
    toB := a2b.Deliver();
    toA := b2a.Deliver();
  }

  /** The relay: one block of zeros to each peer to start them off, priming when anything can slip, and then the loop
      over both directions. Each peer receives that block and as many samples as the other peer sent, and these are a
      prefix of the priming block and the processed samples as emitted: nothing is dropped by a full FIFO or made up
      by an empty one. */
  method Relay(ratio: nat, slipA2B: bool, slipB2A: bool, prime: Block, primeBack: Block,
               fromA: seq<Block>, fromB: seq<Block>) returns (toB: seq<int>, toA: seq<int>)
    requires ratio > 0 && prime.Valid() && primeBack.Valid()
    requires |fromA| == |fromB| && AllValid(fromA) && AllValid(fromB)
    ensures |toB| == |toA| == BLOCK * (|fromA| + 1)
    ensures toB[..BLOCK] == toA[..BLOCK] == Repeat(0, BLOCK)
    ensures toB[BLOCK..] <= EmittedFrom(slipA2B, slipA2B || slipB2A, prime, fromA)
    ensures toA[BLOCK..] <= EmittedFrom(slipB2A, slipA2B || slipB2A, primeBack, fromB)
  {
    hide Round, Rounds, EmitAll, DrawsOf, Newest, EmittedFrom, Cushioned, Slot, Repeat;
    var a2b := new Direction(ratio, slipA2B);
    var b2a := new Direction(ratio, slipB2A);
    var slipAny := slipA2B || slipB2A;
    toB, toA := Repeat(0, BLOCK), Repeat(0, BLOCK);
    if slipAny {
      a2b.Prime(prime);
      b2a.Prime(primeBack);
    }
    PrimingCushions(slipA2B, slipB2A, prime);
    PrimingCushions(slipB2A, slipA2B, primeBack);
    ghost var b0, a0 := Primed(slipA2B, slipAny, prime), Primed(slipB2A, slipAny, primeBack);
    assert a2b.fifo.Contents == b0.0 && b2a.fifo.Contents == a0.0;
    var gotB, gotA := RelayRounds(a2b, b2a, fromA, fromB);
    toB, toA := toB + gotB, toA + gotA;
    Delivers(slipA2B, slipB2A, prime, fromA);
    Delivers(slipB2A, slipA2B, primeBack, fromB);
  }

  /** The loop proper. */
  method RelayRounds(a2b: Direction, b2a: Direction, fromA: seq<Block>, fromB: seq<Block>)
      returns (toB: seq<int>, toA: seq<int>)
    requires a2b.Valid() && b2a.Valid() && |fromA| == |fromB| && AllValid(fromA) && AllValid(fromB)
    requires a2b.chan != b2a.chan && a2b.fifo != b2a.fifo && a2b.fifo.buf != b2a.fifo.buf
    modifies a2b.chan, a2b.fifo, a2b.fifo.buf, b2a.chan, b2a.fifo, b2a.fifo.buf
    ensures a2b.Valid() && b2a.Valid()
    ensures (a2b.fifo.Contents, a2b.chan.accum, toB)
            == Rounds(a2b.chan.slips, old(a2b.fifo.Contents), old(a2b.chan.accum), fromA)
    ensures (b2a.fifo.Contents, b2a.chan.accum, toA)
            == Rounds(b2a.chan.slips, old(b2a.fifo.Contents), old(b2a.chan.accum), fromB)
  {
    hide Round, Rounds, EmitAll, DrawsOf, Newest, Slot;
    ghost var allB := Rounds(a2b.chan.slips, a2b.fifo.Contents, a2b.chan.accum, fromA);
    ghost var allA := Rounds(b2a.chan.slips, b2a.fifo.Contents, b2a.chan.accum, fromB);
    toB, toA := [], [];
    assert [] + allB.2 == allB.2 && [] + allA.2 == allA.2;
    var i := 0;
    assert fromA[i..] == fromA && fromB[i..] == fromB;
    while i < |fromA|
      invariant 0 <= i <= |fromA| && a2b.Valid() && b2a.Valid()
      invariant allB == Ahead(toB, Rounds(a2b.chan.slips, a2b.fifo.Contents, a2b.chan.accum, fromA[i..]))
      invariant allA == Ahead(toA, Rounds(b2a.chan.slips, b2a.fifo.Contents, b2a.chan.accum, fromB[i..]))
    {
      RoundsUnfold(a2b.chan.slips, a2b.fifo.Contents, a2b.chan.accum, fromA[i..], toB);
      RoundsUnfold(b2a.chan.slips, b2a.fifo.Contents, b2a.chan.accum, fromB[i..], toA);
      var outB, outA := RelayRound(a2b, b2a, fromA[i], fromB[i]);
      toB, toA := toB + outB, toA + outA;
      assert fromA[i..][1..] == fromA[i + 1..] && fromB[i..][1..] == fromB[i + 1..];
      i := i + 1;
    }
    RoundsUnfold(a2b.chan.slips, a2b.fifo.Contents, a2b.chan.accum, fromA[i..], toB);
    RoundsUnfold(b2a.chan.slips, b2a.fifo.Contents, b2a.chan.accum, fromB[i..], toA);
  }

}
