/** Following a shifting ring of event rows by two counters and a fingerprint per row, and sending what changed.
    Row 0 of a ring is staged; rows 1 and up are committed, newest first. */
module EventFeed {
  import opened Wrappers

  const LEN: nat := 255 // DSD_EVENT_HISTORY_LEN

  datatype Ring<Row> = Ring(instance: nat, pushSeq: nat, commitRev: nat, rows: seq<Row>)

  /** One event line; a row's identity is (ring, slot, push). */
  datatype Line<Row> = Line(ring: nat, slot: nat, push: int, update: bool, row: Row)

  /** How rows are fingerprinted, and the row as a cleared history holds it. */
  datatype Prints<!Row> = Prints(of: Row -> nat, blank: Row)

  /** What is remembered of a slot's ring since the last look; fp[0] is never used. */
  datatype Memory = Memory(instance: nat, push: nat, commit: nat, fp: seq<nat>)

  predicate Sized<Row>(r: Ring<Row>) {
    |r.rows| == LEN
  }

  function PrintAt<Row>(h: Prints<Row>, r: Ring<Row>, i: nat): nat
    requires Sized(r) && i < LEN
  {
    if i == 0 then 0 else h.of(r.rows[i])
  }

  function PrintsOf<Row>(h: Prints<Row>, r: Ring<Row>): (fp: seq<nat>)
    requires Sized(r)
    ensures |fp| == LEN
  {
    seq(LEN, i requires 0 <= i < LEN => PrintAt(h, r, i))
  }

  function Baseline<Row>(h: Prints<Row>, r: Ring<Row>): Memory
    requires Sized(r)
  {
    Memory(r.instance, r.pushSeq, r.commitRev, PrintsOf(h, r))
  }

  predicate NeedsBaseline<Row>(valid: bool, m: Memory, r: Ring<Row>) {
    !valid || r.instance != m.instance || r.pushSeq < m.push
  }

  predicate Quiet<Row>(m: Memory, r: Ring<Row>) {
    r.pushSeq == m.push && r.commitRev == m.commit
  }

  function Pushed<Row>(m: Memory, r: Ring<Row>): nat
    requires m.push <= r.pushSeq
  {
    if r.pushSeq - m.push > LEN - 1 then LEN - 1 else r.pushSeq - m.push
  }

  /** The fingerprint a row had at the last look, before the pushes since moved it deeper. */
  function Earlier<Row>(m: Memory, r: Ring<Row>, i: nat): nat
    requires m.push <= r.pushSeq && |m.fp| == LEN && i < LEN
  {
    if i > Pushed(m, r) then m.fp[i - Pushed(m, r)] else 0
  }

  predicate Sends<Row>(h: Prints<Row>, m: Memory, r: Ring<Row>, i: nat)
    requires m.push <= r.pushSeq && |m.fp| == LEN && Sized(r) && i < LEN
  {
    var fp := h.of(r.rows[i]);
    fp != h.of(h.blank) && (i <= Pushed(m, r) || fp != Earlier(m, r, i))
  }

  function PushOf<Row>(r: Ring<Row>, i: nat): int {
    r.pushSeq - (i - 1)
  }

  function LineOf<Row>(m: Memory, r: Ring<Row>, slot: nat, i: nat): Line<Row>
    requires m.push <= r.pushSeq && Sized(r) && i < LEN
  {
    Line(r.instance, slot, PushOf(r, i), i > Pushed(m, r), r.rows[i])
  }

  /** The lines for the rows below n, oldest first. */
  function Gathered<Row>(h: Prints<Row>, m: Memory, r: Ring<Row>, slot: nat, i: nat): seq<Line<Row>>
    requires m.push <= r.pushSeq && |m.fp| == LEN && Sized(r) && 1 <= i <= LEN
    decreases LEN - i
  {
    if i == LEN then []
    else Gathered(h, m, r, slot, i + 1) + if Sends(h, m, r, i) then [LineOf(m, r, slot, i)] else []
  }

  /** Row i's fingerprint is not the blank one's, and the row was pushed since the last look or had another then. */
  predicate Differs<Row>(h: Prints<Row>, m: Memory, r: Ring<Row>, i: nat)
    requires |m.fp| == LEN && Sized(r) && 1 <= i < LEN
  {
    var was := i - (r.pushSeq - m.push);
    h.of(r.rows[i]) != h.of(h.blank) && (was < 1 || was >= LEN || h.of(r.rows[i]) != m.fp[was])
  }

  /** A line is about a committed row as the ring holds it, and an update exactly when the row had been pushed at the
      last look. */
  predicate Reports<Row(==)>(line: Line<Row>, m: Memory, r: Ring<Row>, slot: nat)
    requires Sized(r)
  {
    && line.slot == slot
    && line.ring == r.instance
    && 1 <= r.pushSeq - line.push + 1 < LEN
    && line.row == r.rows[r.pushSeq - line.push + 1]
    && (line.update <==> line.push <= m.push)
  }

  /** Oldest row first. */
  ghost predicate Ascending<Row>(lines: seq<Line<Row>>) {
    forall j, k :: 0 <= j < k < |lines| ==> lines[j].push < lines[k].push
  }

  ghost predicate Mentions<Row>(lines: seq<Line<Row>>, push: int) {
    exists k :: 0 <= k < |lines| && lines[k].push == push
  }

  /** One line, oldest first, for every row from i on that differs from the last look, and none for the others. */
  ghost predicate Reported<Row>(h: Prints<Row>, m: Memory, r: Ring<Row>, slot: nat, lines: seq<Line<Row>>, i: nat)
    requires |m.fp| == LEN && Sized(r) && 1 <= i
  {
    && Ascending(lines)
    && (forall k :: 0 <= k < |lines| ==> Reports(lines[k], m, r, slot) && lines[k].push <= PushOf(r, i))
    && forall at :: i <= at < LEN ==> (Mentions(lines, PushOf(r, at)) <==> Differs(h, m, r, at))
  }

  lemma {:induction false} GatheredReports<Row>(h: Prints<Row>, m: Memory, r: Ring<Row>, slot: nat, i: nat)
    requires m.push <= r.pushSeq && |m.fp| == LEN && Sized(r) && 1 <= i <= LEN
    ensures Reported(h, m, r, slot, Gathered(h, m, r, slot, i), i)
    decreases LEN - i
  {
    if i < LEN {
      GatheredReports(h, m, r, slot, i + 1);
      var rest := Gathered(h, m, r, slot, i + 1);
      assert Sends(h, m, r, i) <==> Differs(h, m, r, i);
      if Sends(h, m, r, i) {
        LineReports(h, m, r, slot, rest, i);
      } else {
        assert rest + [] == rest;
        assert !Mentions(rest, PushOf(r, i));
      }
    }
  }

  lemma LineReports<Row>(h: Prints<Row>, m: Memory, r: Ring<Row>, slot: nat, rest: seq<Line<Row>>, i: nat)
    requires m.push <= r.pushSeq && |m.fp| == LEN && Sized(r) && 1 <= i < LEN && Differs(h, m, r, i)
    requires Reported(h, m, r, slot, rest, i + 1)
    ensures Reported(h, m, r, slot, rest + [LineOf(m, r, slot, i)], i)
  {
    hide Differs;
    var line := LineOf(m, r, slot, i);
    var lines := rest + [line];
    assert Reports(line, m, r, slot);
    forall at | i <= at < LEN ensures Mentions(lines, PushOf(r, at)) <==> Differs(h, m, r, at) {
      if at == i {
        assert lines[|rest|].push == PushOf(r, at);
      } else if Mentions(rest, PushOf(r, at)) {
        var k :| 0 <= k < |rest| && rest[k].push == PushOf(r, at);
        assert lines[k].push == PushOf(r, at);
      }
    }
  }

  function LinesOf<Row>(h: Prints<Row>, valid: bool, m: Memory, r: Ring<Row>, slot: nat, send: bool): seq<Line<Row>>
    requires |m.fp| == LEN && Sized(r)
  {
    if NeedsBaseline(valid, m, r) || Quiet(m, r) || !send then [] else Gathered(h, m, r, slot, 1)
  }

  function Looked<Row>(h: Prints<Row>, valid: bool, m: Memory, r: Ring<Row>): Memory
    requires Sized(r)
  {
    if !NeedsBaseline(valid, m, r) && Quiet(m, r) then m else Baseline(h, r)
  }

  /** One slot's share of the diffing state. */
  class SlotFeed<Row(==)> {
    var instance: nat
    var push: nat
    var commit: nat
    const fp: array<nat>

    constructor ()
      ensures Valid() && fresh(this) && fresh(fp)
    {
      instance, push, commit := 0, 0, 0;
      fp := new nat[LEN](_ => 0);
    }

    predicate Valid() {
      fp.Length == LEN
    }

    function View(): (m: Memory)
      requires Valid()
      reads this, fp
      ensures |m.fp| == LEN
    {
      Memory(instance, push, commit, [0] + fp[1..])
    }

    method EhBaseline(ring: Ring<Row>, h: Prints<Row>)
      requires Valid() && Sized(ring)
      modifies this, fp
      ensures View() == Baseline(h, ring)
    {
      instance := ring.instance;
      push := ring.pushSeq;
      commit := ring.commitRev;
      for i := 1 to LEN
        invariant forall k :: 1 <= k < i ==> fp[k] == h.of(ring.rows[k])
        invariant instance == ring.instance && push == ring.pushSeq && commit == ring.commitRev
      {
        fp[i] := h.of(ring.rows[i]);
      }
      ViewIsBaseline(ring, h);
    }

    /** gather_slot_events. */
    method GatherSlotEvents(valid: bool, ring: Ring<Row>, h: Prints<Row>, slot: nat, send: bool)
      returns (lines: seq<Line<Row>>)
      requires Valid() && Sized(ring)
      modifies this, fp
      ensures lines == LinesOf(h, valid, old(View()), ring, slot, send)
      ensures View() == Looked(h, valid, old(View()), ring)
      ensures lines != [] ==> send && valid && ring.instance == old(instance) && ring.pushSeq >= old(push)
      ensures send && valid && ring.instance == old(instance) && ring.pushSeq >= old(push)
              && (ring.pushSeq != old(push) || ring.commitRev != old(commit)) ==>
                Reported(h, old(View()), ring, slot, lines, 1)
    {
      hide Gathered, Earlier, PrintsOf;
      lines := [];
      if !valid || ring.instance != instance || ring.pushSeq < push {
        EhBaseline(ring, h);
        return;
      }
      if ring.pushSeq == push && ring.commitRev == commit {
        return;
      }
      var pushed := ring.pushSeq - push;
      if pushed > LEN - 1 {
        pushed := LEN - 1;
      }
      ghost var m := View();
      ShiftDown(pushed);
      ShiftedIsEarlier(m, ring);
      lines := SendChanged(ring, h, slot, send, pushed, m);
      push := ring.pushSeq;
      commit := ring.commitRev;
      ViewIsBaseline(ring, h);
    }

    lemma ViewIsBaseline(ring: Ring<Row>, h: Prints<Row>)
      requires Valid() && Sized(ring)
      requires instance == ring.instance && push == ring.pushSeq && commit == ring.commitRev
      requires forall k :: 1 <= k < LEN ==> fp[k] == h.of(ring.rows[k])
      ensures View() == Baseline(h, ring)
    {
      assert View().fp == PrintsOf(h, ring);
    }

    static lemma ShiftedIsEarlier(m: Memory, ring: Ring<Row>)
      requires m.push <= ring.pushSeq && |m.fp| == LEN
      ensures forall k :: 1 <= k < LEN ==>
                Earlier(m, ring, k) == if k > Pushed(m, ring) then m.fp[k - Pushed(m, ring)] else 0
    {
    }

    /** Each push moved every remembered fingerprint one index deeper; new rows have none. */
    method ShiftDown(pushed: nat)
      requires Valid() && pushed <= LEN - 1
      modifies fp
      ensures forall k :: 1 <= k < LEN ==> fp[k] == if k > pushed then old(fp[k - pushed]) else 0
    {
      for i := LEN downto 1
        invariant forall k :: i <= k < LEN ==> fp[k] == if k > pushed then old(fp[k - pushed]) else 0
        invariant forall k :: 1 <= k < i ==> fp[k] == old(fp[k])
      {
        fp[i] := if i > pushed then fp[i - pushed] else 0;
      }
    }

    method SendChanged(ring: Ring<Row>, h: Prints<Row>, slot: nat, send: bool, pushed: nat, ghost m: Memory)
      returns (lines: seq<Line<Row>>)
      requires Valid() && Sized(ring) && m.push <= ring.pushSeq && |m.fp| == LEN && pushed == Pushed(m, ring)
      requires forall k :: 1 <= k < LEN ==> fp[k] == Earlier(m, ring, k)
      modifies fp
      ensures lines == if send then Gathered(h, m, ring, slot, 1) else []
      ensures send ==> Reported(h, m, ring, slot, lines, 1)
      ensures forall k :: 1 <= k < LEN ==> fp[k] == h.of(ring.rows[k])
    {
      hide Reported, Differs;
      GatheredReports(h, m, ring, slot, 1);
      lines := [];
      for i := LEN downto 1
        invariant lines == if send then Gathered(h, m, ring, slot, i) else []
        invariant forall k :: i <= k < LEN ==> fp[k] == h.of(ring.rows[k])
        invariant forall k :: 1 <= k < i ==> fp[k] == Earlier(m, ring, k)
      {
        var seen := h.of(ring.rows[i]);
        if send && seen != h.of(h.blank) && (i <= pushed || seen != fp[i]) {
          lines := lines + [Line(ring.instance, slot, ring.pushSeq - (i - 1), i > pushed, ring.rows[i])];
        }
        fp[i] := seen;
      }
    }
  }

  /** Both slots, followed at every publish whether or not anyone listens. */
  class Feed<Row(==)> {
    const first: SlotFeed<Row>
    const second: SlotFeed<Row>
    var valid: bool

    constructor ()
      ensures Valid() && !valid
    {
      first := new SlotFeed();
      second := new SlotFeed();
      valid := false;
    }

    predicate Valid() {
      first.Valid() && second.Valid() && first != second && first.fp != second.fp
    }

    /** track_events: None when there is no history at all. */
    method TrackEvents(rings: Option<(Ring<Row>, Ring<Row>)>, h: Prints<Row>, send: bool)
      returns (batch: seq<Line<Row>>)
      requires Valid() && (rings.Some? ==> Sized(rings.value.0) && Sized(rings.value.1))
      modifies this, first, first.fp, second, second.fp
      ensures valid == rings.Some?
      ensures rings.None? ==> batch == [] && first.View() == old(first.View()) && second.View() == old(second.View())
      ensures rings.Some? ==>
                batch == LinesOf(h, old(valid), old(first.View()), rings.value.0, 0, send)
                         + LinesOf(h, old(valid), old(second.View()), rings.value.1, 1, send)
                && first.View() == Looked(h, old(valid), old(first.View()), rings.value.0)
                && second.View() == Looked(h, old(valid), old(second.View()), rings.value.1)
    {
      batch := [];
      if rings.None? {
        valid := false;
        return;
      }
      var a := first.GatherSlotEvents(valid, rings.value.0, h, 0, send);
      var b := second.GatherSlotEvents(valid, rings.value.1, h, 1, send);
      batch := a + b;
      valid := true;
    }
  }
}
