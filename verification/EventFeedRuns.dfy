/** The feed against the ring it follows: over every interleaving of ring writes, looks and subscriptions, replaying
    a subscriber's lines gives what re-reading the ring gives.

    The ring writer (src/core/util/dsd_events.c) is the environment. It pushes the staged row (push_seq and
    commit_rev go up), changes a committed row in place (commit_rev goes up), clears every row (commit_rev goes up),
    and a new session brings a new ring with an instance no ring had before. */
module EventFeedRuns {
  import opened EventFeed
  import opened Wrappers
  import Fingerprint

  /** A row as a client sees it: the bytes of its fields, each text up to its terminator. */
  type Row = seq<Fingerprint.byte>

  datatype Op =
    | Stage(row: Row)
    | PushRow
    | Change(index: nat, row: Row)
    | Clear
    | Replace(lost: bool, instance: nat) // a new ring; lost when a publish in between found no ring at all
    | Subscribe                          // one more client joins
    | Look(send: bool)                   // a publish, with or without any subscriber

  /** The ring and the instances drawn so far, the feed's memory, and what a continuous subscriber has: the lines since
      it joined, and the rings the feed looked at since then on this instance, from the last look before it joined. */
  datatype World = World(ring: Ring<Row>, drawn: set<nat>, memory: Memory, valid: bool, seen: seq<Ring<Row>>,
                         lines: seq<Line<Row>>)

  /** Among these rows, the blank one with them, no two share a fingerprint. */
  ghost predicate Apart(h: Prints<Row>, rows: set<Row>) {
    h.blank in rows && forall a, b :: a in rows && b in rows && h.of(a) == h.of(b) ==> a == b
  }

  /** Every row a run stores: the blank one and those staged or changed to. */
  function RowsOf(h: Prints<Row>, ops: seq<Op>): set<Row> {
    if ops == [] then {h.blank}
    else
      var op := ops[|ops| - 1];
      RowsOf(h, ops[..|ops| - 1]) + if op.Stage? || op.Change? then {op.row} else {}
  }

  function Empty(h: Prints<Row>, instance: nat): (r: Ring<Row>)
    ensures Sized(r)
  {
    Ring(instance, 0, 0, seq(LEN, _ => h.blank))
  }

  function Init(h: Prints<Row>): World {
    World(Empty(h, 0), {0}, Memory(0, 0, 0, seq<nat>(LEN, _ => 0)), false, [], [])
  }

  function Written(h: Prints<Row>, r: Ring<Row>, op: Op): (s: Ring<Row>)
    requires Sized(r)
    ensures Sized(s)
  {
    if op.Stage? then r.(rows := r.rows[0 := op.row])
    else if op.PushRow? then Ring(r.instance, r.pushSeq + 1, r.commitRev + 1, [r.rows[0]] + r.rows[..LEN - 1])
    else if op.Change? && 1 <= op.index < LEN && op.index <= r.pushSeq then
      r.(commitRev := r.commitRev + 1, rows := r.rows[op.index := op.row])
    else if op.Clear? then r.(commitRev := r.commitRev + 1, rows := seq(LEN, _ => h.blank))
    else if op.Replace? then Empty(h, op.instance)
    else r
  }

  /** A new ring draws an instance no ring had before. */
  function Applied(h: Prints<Row>, w: World, op: Op): (v: World)
    requires Sized(w.ring) && |w.memory.fp| == LEN
    ensures Sized(v.ring) && |v.memory.fp| == LEN
  {
    if op.Subscribe? then w.(lines := [], seen := if w.seen == [] then [] else [w.seen[|w.seen| - 1]])
    else if op.Look? then
      World(w.ring, w.drawn, Looked(h, w.valid, w.memory, w.ring), true,
            if NeedsBaseline(w.valid, w.memory, w.ring) || !op.send then [w.ring] else w.seen + [w.ring],
            if op.send then w.lines + LinesOf(h, w.valid, w.memory, w.ring, 0, true) else [])
    else if op.Replace? then
      if op.instance in w.drawn then w
      else w.(ring := Written(h, w.ring, op), drawn := w.drawn + {op.instance}, valid := w.valid && !op.lost)
    else w.(ring := Written(h, w.ring, op))
  }

  function Run(h: Prints<Row>, ops: seq<Op>): (w: World)
    ensures Sized(w.ring) && |w.memory.fp| == LEN
  {
    if ops == [] then Init(h) else Applied(h, Run(h, ops[..|ops| - 1]), ops[|ops| - 1])
  }

  // ---- The client's side

  /** A client's copy of a row: the last line about it. */
  function Latest(lines: seq<Line<Row>>, ring: nat, push: int): Option<Row> {
    if lines == [] then None
    else
      var last := lines[|lines| - 1];
      if last.ring == ring && last.push == push then Some(last.row) else Latest(lines[..|lines| - 1], ring, push)
  }

  /** The ring holds this content under that push. */
  predicate Holds(r: Ring<Row>, push: int, row: Row)
    requires Sized(r)
  {
    1 <= r.pushSeq - push + 1 < LEN && r.rows[r.pushSeq - push + 1] == row
  }

  /** Some look read that row with other content, or not at all. */
  ghost predicate ReadOtherwise(seen: seq<Ring<Row>>, push: int, row: Row) {
    exists j :: 0 <= j < |seen| && Sized(seen[j]) && !Holds(seen[j], push, row)
  }

  // ---- What every run keeps

  /** Rows below the pushes made are blank. */
  predicate DeepBlank(h: Prints<Row>, r: Ring<Row>)
    requires Sized(r)
  {
    forall i :: 1 <= i < LEN && i > r.pushSeq ==> r.rows[i] == h.blank
  }

  /** How far a ring may have moved on from the one last looked at. */
  predicate MovedOn(earlier: Ring<Row>, r: Ring<Row>)
    requires Sized(earlier) && Sized(r)
  {
    r.instance == earlier.instance ==>
      && earlier.pushSeq <= r.pushSeq && earlier.commitRev <= r.commitRev
      && (earlier.commitRev == r.commitRev ==>
            earlier.pushSeq == r.pushSeq && forall i :: 1 <= i < LEN ==> earlier.rows[i] == r.rows[i])
  }

  ghost predicate ReplayMatches(h: Prints<Row>, w: World, r: Ring<Row>)
    requires Sized(r)
  {
    forall i :: 1 <= i < LEN && r.rows[i] != h.blank ==>
      Latest(w.lines, r.instance, PushOf(r, i))
      == if ReadOtherwise(w.seen, PushOf(r, i), r.rows[i]) then Some(r.rows[i]) else None
  }

  /** Every line is of a ring drawn, and of one of its pushes so far if it is this one. */
  ghost predicate LinesPast(lines: seq<Line<Row>>, r: Ring<Row>, drawn: set<nat>) {
    forall k :: 0 <= k < |lines| ==>
      lines[k].ring in drawn && (lines[k].ring == r.instance ==> lines[k].push <= r.pushSeq)
  }

  /** The feed's memory is its last look, the ring has only moved on from it, and the lines are of rings up to it:
      whatever the fingerprints. */
  ghost predicate Tracked(h: Prints<Row>, w: World) {
    && Sized(w.ring) && DeepBlank(h, w.ring) && w.ring.instance in w.drawn
    && (w.seen == [] ==> !w.valid && w.lines == [])
    && (w.seen != [] ==>
      var r := w.seen[|w.seen| - 1];
      && Sized(r) && r.instance in w.drawn && MovedOn(r, w.ring) && (!w.valid ==> r.instance != w.ring.instance)
      && w.memory.instance == r.instance && w.memory.push == r.pushSeq && w.memory.commit == r.commitRev
      && w.memory.fp == PrintsOf(h, r)
      && LinesPast(w.lines, r, w.drawn)
      && (r.instance != w.ring.instance ==> NoneOf(w.lines, w.ring.instance)))
  }

  /** No line is of that ring. */
  ghost predicate NoneOf(lines: seq<Line<Row>>, ring: nat) {
    forall k :: 0 <= k < |lines| ==> lines[k].ring != ring
  }

  ghost predicate RingIn(r: Ring<Row>, rows: set<Row>)
    requires Sized(r)
  {
    forall i :: 0 <= i < LEN ==> r.rows[i] in rows
  }

  /** And what the client has replayed is the ring of the last look, all of it of these rows. */
  ghost predicate Followed(h: Prints<Row>, w: World, rows: set<Row>) {
    && Tracked(h, w) && RingIn(w.ring, rows)
    && (w.seen != [] ==>
      var r := w.seen[|w.seen| - 1];
      RingIn(r, rows) && ReplayMatches(h, w, r))
  }

  lemma {:induction false} LatestAppend(x: seq<Line<Row>>, y: seq<Line<Row>>, ring: nat, push: int)
    ensures Latest(x + y, ring, push)
            == if Latest(y, ring, push).Some? then Latest(y, ring, push) else Latest(x, ring, push)
    decreases |y|
  {
    if y == [] {
      assert x + y == x;
    } else {
      LatestAppend(x, y[..|y| - 1], ring, push);
      assert (x + y)[..|x + y| - 1] == x + y[..|y| - 1];
    }
  }

  lemma LatestLast(lines: seq<Line<Row>>, line: Line<Row>, ring: nat, push: int)
    ensures Latest(lines + [line], ring, push)
            == if line.ring == ring && line.push == push then Some(line.row) else Latest(lines, ring, push)
  {
    assert (lines + [line])[..|lines|] == lines;
  }

  lemma GatheredNext(h: Prints<Row>, m: Memory, r: Ring<Row>, i: nat)
    requires m.push <= r.pushSeq && |m.fp| == LEN && Sized(r) && 1 <= i < LEN
    ensures var rest := Gathered(h, m, r, 0, i + 1);
            Gathered(h, m, r, 0, i) == if Sends(h, m, r, i) then rest + [LineOf(m, r, 0, i)] else rest
  {
    hide Sends;
    var rest := Gathered(h, m, r, 0, i + 1);
    assert rest + [] == rest;
  }

  /** A batch holds at most one line about a row: its own, if the row is sent. */
  lemma {:induction false} LatestInBatch(h: Prints<Row>, m: Memory, r: Ring<Row>, i: nat, at: nat)
    requires m.push <= r.pushSeq && |m.fp| == LEN && Sized(r) && 1 <= i <= LEN && 1 <= at < LEN
    ensures Latest(Gathered(h, m, r, 0, i), r.instance, PushOf(r, at))
            == if i <= at && Sends(h, m, r, at) then Some(r.rows[at]) else None
    decreases LEN - i
  {
    hide Sends;
    if i < LEN {
      LatestInBatch(h, m, r, i + 1, at);
      GatheredNext(h, m, r, i);
      LatestLast(Gathered(h, m, r, 0, i + 1), LineOf(m, r, 0, i), r.instance, PushOf(r, at));
      hide Gathered, Latest;
    }
  }

  lemma {:induction false} BatchRange(h: Prints<Row>, m: Memory, r: Ring<Row>, i: nat, k: nat)
    requires m.push <= r.pushSeq && |m.fp| == LEN && Sized(r) && 1 <= i <= LEN && k < |Gathered(h, m, r, 0, i)|
    ensures var line := Gathered(h, m, r, 0, i)[k];
            line.ring == r.instance && line.push <= PushOf(r, i) && line.row != h.blank
            && (line.update <==> line.push <= m.push)
            && exists at :: i <= at < LEN && line.push == PushOf(r, at) && line.row == r.rows[at]
    decreases LEN - i
  {
    var rest := Gathered(h, m, r, 0, i + 1);
    if k < |rest| {
      BatchRange(h, m, r, i + 1, k);
    }
  }

  /** Not sent means: this very content was there at the last look. */
  lemma UnsentMeansSame(h: Prints<Row>, earlier: Ring<Row>, r: Ring<Row>, i: nat, rows: set<Row>)
    requires Sized(earlier) && Sized(r) && Apart(h, rows) && RingIn(earlier, rows) && RingIn(r, rows)
    requires earlier.pushSeq <= r.pushSeq && 1 <= i < LEN && r.rows[i] != h.blank
    ensures Sends(h, Baseline(h, earlier), r, i) <==> !Holds(earlier, PushOf(r, i), r.rows[i])
  {
  }

  /** A look that sends what differs keeps track, whatever the fingerprints. */
  lemma LookTracks(h: Prints<Row>, w: World)
    requires Tracked(h, w) && w.seen != [] && |w.memory.fp| == LEN
    requires !NeedsBaseline(w.valid, w.memory, w.ring) && !Quiet(w.memory, w.ring)
    ensures Tracked(h, Applied(h, w, Look(true)))
  {
    hide Gathered, Sends, PrintsOf;
    var r, v := w.ring, Applied(h, w, Look(true));
    var batch := Gathered(h, w.memory, r, 0, 1);
    assert v.lines == w.lines + batch;
    forall k | 0 <= k < |batch| ensures batch[k].ring == r.instance && batch[k].push <= r.pushSeq {
      BatchRange(h, w.memory, r, 1, k);
    }
  }

  lemma LookKeeps(h: Prints<Row>, w: World, rows: set<Row>)
    requires Apart(h, rows) && Followed(h, w, rows) && w.seen != [] && |w.memory.fp| == LEN
    requires !NeedsBaseline(w.valid, w.memory, w.ring) && !Quiet(w.memory, w.ring)
    ensures Followed(h, Applied(h, w, Look(true)), rows)
  {
    hide Gathered, Sends, ReadOtherwise, Latest, PrintsOf;
    var r, v := w.ring, Applied(h, w, Look(true));
    LookTracks(h, w);
    assert v.lines == w.lines + Gathered(h, w.memory, r, 0, 1);
    forall i | 1 <= i < LEN && r.rows[i] != h.blank
      ensures Latest(v.lines, r.instance, PushOf(r, i))
              == if ReadOtherwise(v.seen, PushOf(r, i), r.rows[i]) then Some(r.rows[i]) else None
    {
      hide *;
      LookKeepsRow(h, w, i, rows);
    }
  }

  lemma LookKeepsRow(h: Prints<Row>, w: World, i: nat, rows: set<Row>)
    requires Apart(h, rows) && Followed(h, w, rows) && w.seen != [] && |w.memory.fp| == LEN
    requires !NeedsBaseline(w.valid, w.memory, w.ring) && 1 <= i < LEN && w.ring.rows[i] != h.blank
    ensures var r := w.ring;
            Latest(w.lines + Gathered(h, w.memory, r, 0, 1), r.instance, PushOf(r, i))
            == if ReadOtherwise(w.seen + [r], PushOf(r, i), r.rows[i]) then Some(r.rows[i]) else None
  {
    hide Sends, Gathered, ReadOtherwise, PrintsOf, Apart, LinesPast, NoneOf;
    var earlier, r, m := w.seen[|w.seen| - 1], w.ring, w.memory;
    assert m == Baseline(h, earlier);
    LatestAppend(w.lines, Gathered(h, m, r, 0, 1), r.instance, PushOf(r, i));
    LatestInBatch(h, m, r, 1, i);
    UnsentMeansSame(h, earlier, r, i, rows);
    SeenGrows(w.seen, r, PushOf(r, i), r.rows[i]);
    if !Sends(h, m, r, i) {
      var was := earlier.pushSeq - PushOf(r, i) + 1;
      assert earlier.rows[was] == r.rows[i] && PushOf(earlier, was) == PushOf(r, i);
    }
  }

  lemma SeenGrows(seen: seq<Ring<Row>>, r: Ring<Row>, push: int, row: Row)
    requires Sized(r) && Holds(r, push, row) && seen != [] && Sized(seen[|seen| - 1])
    ensures ReadOtherwise(seen + [r], push, row) <==> ReadOtherwise(seen, push, row)
    ensures !Holds(seen[|seen| - 1], push, row) ==> ReadOtherwise(seen, push, row)
  {
    var all := seen + [r];
    if ReadOtherwise(seen, push, row) {
      var j :| 0 <= j < |seen| && Sized(seen[j]) && !Holds(seen[j], push, row);
      assert all[j] == seen[j];
    }
    if ReadOtherwise(all, push, row) {
      var j :| 0 <= j < |all| && Sized(all[j]) && !Holds(all[j], push, row);
      assert j < |seen|;
    }
  }

  lemma QuietLookTracks(h: Prints<Row>, w: World)
    requires Tracked(h, w) && w.seen != [] && |w.memory.fp| == LEN
    requires !NeedsBaseline(w.valid, w.memory, w.ring) && Quiet(w.memory, w.ring)
    ensures Tracked(h, Applied(h, w, Look(true)))
  {
    assert PrintsOf(h, w.ring) == PrintsOf(h, w.seen[|w.seen| - 1]);
  }

  /** A quiet look changes nothing: without a counter moving no committed row has changed. */
  lemma QuietLookKeeps(h: Prints<Row>, w: World, rows: set<Row>)
    requires Followed(h, w, rows) && w.seen != [] && |w.memory.fp| == LEN
    requires !NeedsBaseline(w.valid, w.memory, w.ring) && Quiet(w.memory, w.ring)
    ensures Followed(h, Applied(h, w, Look(true)), rows)
  {
    hide ReadOtherwise, PrintsOf;
    QuietLookTracks(h, w);
    var earlier, r := w.seen[|w.seen| - 1], w.ring;
    var v := Applied(h, w, Look(true));
    assert v.lines == w.lines;
    forall i | 1 <= i < LEN && r.rows[i] != h.blank
      ensures Latest(v.lines, r.instance, PushOf(r, i))
              == if ReadOtherwise(v.seen, PushOf(r, i), r.rows[i]) then Some(r.rows[i]) else None
    {
      assert earlier.rows[i] == r.rows[i] && PushOf(earlier, i) == PushOf(r, i);
      SeenGrows(w.seen, r, PushOf(r, i), r.rows[i]);
    }
  }

  lemma {:induction false} NothingFrom(lines: seq<Line<Row>>, ring: nat, push: int)
    requires NoneOf(lines, ring)
    ensures Latest(lines, ring, push) == None
    decreases |lines|
  {
    if lines != [] {
      NothingFrom(lines[..|lines| - 1], ring, push);
    }
  }

  lemma FreshLookTracks(h: Prints<Row>, w: World, send: bool)
    requires Tracked(h, w) && |w.memory.fp| == LEN
    requires NeedsBaseline(w.valid, w.memory, w.ring) || !send
    ensures Tracked(h, Applied(h, w, Look(send)))
    ensures NoneOf(Applied(h, w, Look(send)).lines, w.ring.instance)
  {
    if !NeedsBaseline(w.valid, w.memory, w.ring) && Quiet(w.memory, w.ring) {
      assert PrintsOf(h, w.ring) == PrintsOf(h, w.seen[|w.seen| - 1]);
    }
  }

  /** A look that takes a baseline, or that nobody listens to, starts the account over. */
  lemma FreshLookKeeps(h: Prints<Row>, w: World, send: bool, rows: set<Row>)
    requires Followed(h, w, rows) && |w.memory.fp| == LEN
    requires NeedsBaseline(w.valid, w.memory, w.ring) || !send
    ensures Followed(h, Applied(h, w, Look(send)), rows)
  {
    hide LinesOf, PrintsOf, NoneOf, LinesPast, DeepBlank;
    FreshLookTracks(h, w, send);
    var r, v := w.ring, Applied(h, w, Look(send));
    forall i | 1 <= i < LEN && r.rows[i] != h.blank
      ensures Latest(v.lines, r.instance, PushOf(r, i)) == None && !ReadOtherwise([r], PushOf(r, i), r.rows[i])
    {
      NothingFrom(v.lines, r.instance, PushOf(r, i));
    }
  }

  lemma WriteTracks(h: Prints<Row>, w: World, op: Op)
    requires Tracked(h, w) && |w.memory.fp| == LEN && !op.Look? && !op.Subscribe?
    ensures Tracked(h, Applied(h, w, op))
  {
    var v := Applied(h, w, op);
    assert DeepBlank(h, v.ring);
    if w.seen != [] {
      assert MovedOn(w.seen[|w.seen| - 1], v.ring);
    }
  }

  lemma WriteKeeps(h: Prints<Row>, w: World, op: Op, rows: set<Row>)
    requires Followed(h, w, rows) && |w.memory.fp| == LEN && !op.Look? && !op.Subscribe?
    requires h.blank in rows && (op.Stage? || op.Change? ==> op.row in rows)
    ensures Followed(h, Applied(h, w, op), rows)
  {
    hide Tracked, ReadOtherwise, Latest;
    WriteTracks(h, w, op);
    TrackedSized(h, w);
    var v := Applied(h, w, op);
    WrittenIn(h, w.ring, op, rows);
    if w.seen != [] {
      assert ReplayMatches(h, v, w.seen[|w.seen| - 1]);
    }
  }

  lemma WrittenIn(h: Prints<Row>, r: Ring<Row>, op: Op, rows: set<Row>)
    requires Sized(r) && RingIn(r, rows) && h.blank in rows && (op.Stage? || op.Change? ==> op.row in rows)
    ensures RingIn(Written(h, r, op), rows)
  {
    var s := Written(h, r, op);
    if op.PushRow? {
      assert forall i :: 0 < i < LEN ==> s.rows[i] == r.rows[i - 1];
    }
  }

  lemma TrackedSized(h: Prints<Row>, w: World)
    requires Tracked(h, w)
    ensures Sized(w.ring) && (w.seen != [] ==> Sized(w.seen[|w.seen| - 1]))
  {
  }

  lemma SubscribeTracks(h: Prints<Row>, w: World)
    requires Tracked(h, w) && |w.memory.fp| == LEN
    ensures Tracked(h, Applied(h, w, Subscribe))
  {
  }

  lemma SubscribeKeeps(h: Prints<Row>, w: World, rows: set<Row>)
    requires Followed(h, w, rows) && |w.memory.fp| == LEN
    ensures Followed(h, Applied(h, w, Subscribe), rows)
  {
    SubscribeTracks(h, w);
    hide Tracked;
    TrackedSized(h, w);
    if w.seen != [] {
      var r := w.seen[|w.seen| - 1];
      forall i | 1 <= i < LEN ensures !ReadOtherwise([r], PushOf(r, i), r.rows[i]) {
      }
    }
  }

  lemma InitFollows(h: Prints<Row>)
    ensures Followed(h, Init(h), {h.blank})
  {
  }

  /** Over every run, whatever the fingerprints. */
  lemma {:induction false} RunTracks(h: Prints<Row>, ops: seq<Op>)
    ensures Tracked(h, Run(h, ops))
    decreases |ops|
  {
    if ops == [] {
      InitFollows(h);
    } else {
      hide Applied, Tracked;
      RunTracks(h, ops[..|ops| - 1]);
      StepTracks(h, Run(h, ops[..|ops| - 1]), ops[|ops| - 1]);
    }
  }

  lemma StepTracks(h: Prints<Row>, w: World, op: Op)
    requires Tracked(h, w) && |w.memory.fp| == LEN
    ensures Tracked(h, Applied(h, w, op))
  {
    hide Applied, PrintsOf, LinesPast, NoneOf, DeepBlank, MovedOn;
    match op
    case Look(send) =>
      if NeedsBaseline(w.valid, w.memory, w.ring) || !send {
        FreshLookTracks(h, w, send);
      } else if Quiet(w.memory, w.ring) {
        QuietLookTracks(h, w);
      } else {
        LookTracks(h, w);
      }
    case Subscribe => SubscribeTracks(h, w);
    case _ => WriteTracks(h, w, op);
  }

  /** Over every run of rows no two of which collide. */
  lemma {:induction false} RunFollows(h: Prints<Row>, ops: seq<Op>, rows: set<Row>)
    requires Apart(h, rows) && RowsOf(h, ops) <= rows
    ensures Followed(h, Run(h, ops), rows)
    decreases |ops|
  {
    hide Applied, Followed, Apart;
    if ops == [] {
      StartFollows(h, rows);
    } else {
      RunFollows(h, ops[..|ops| - 1], rows);
      StepFollows(h, Run(h, ops[..|ops| - 1]), ops[|ops| - 1], rows);
    }
  }

  lemma StartFollows(h: Prints<Row>, rows: set<Row>)
    requires h.blank in rows
    ensures Followed(h, Init(h), rows)
  {
    InitFollows(h);
  }

  lemma StepFollows(h: Prints<Row>, w: World, op: Op, rows: set<Row>)
    requires Apart(h, rows) && Followed(h, w, rows) && |w.memory.fp| == LEN
    requires op.Stage? || op.Change? ==> op.row in rows
    ensures Followed(h, Applied(h, w, op), rows)
  {
    hide Applied, ReplayMatches, PrintsOf, LinesPast, NoneOf, DeepBlank, MovedOn, RingIn;
    match op
    case Look(send) =>
      if NeedsBaseline(w.valid, w.memory, w.ring) || !send {
        FreshLookKeeps(h, w, send, rows);
      } else if Quiet(w.memory, w.ring) {
        QuietLookKeeps(h, w, rows);
      } else {
        LookKeeps(h, w, rows);
      }
    case Subscribe => SubscribeKeeps(h, w, rows);
    case _ => WriteKeeps(h, w, op, rows);
  }

  // ---- The feed agrees with the ring

  /** After any run that ends in a look: a client's copy of a non-blank committed row is there, and current, exactly
      when some look from the last one before it subscribed read that row otherwise or not at all. */
  lemma ReplayIsExact(h: Prints<Row>, ops: seq<Op>, i: nat)
    requires Apart(h, RowsOf(h, ops)) && ops != [] && ops[|ops| - 1].Look? && 1 <= i < LEN
    requires Run(h, ops).ring.rows[i] != h.blank
    ensures var w := Run(h, ops);
            Latest(w.lines, w.ring.instance, PushOf(w.ring, i))
            == if ReadOtherwise(w.seen, PushOf(w.ring, i), w.ring.rows[i]) then Some(w.ring.rows[i]) else None
  {
    hide Run, Latest, ReadOtherwise, Tracked, Apart, RowsOf, RingIn;
    RunFollows(h, ops, RowsOf(h, ops));
    TrackedSized(h, Run(h, ops));
    RunEndsLooked(h, ops);
  }

  lemma RunEndsLooked(h: Prints<Row>, ops: seq<Op>)
    requires ops != [] && ops[|ops| - 1].Look?
    ensures var w := Run(h, ops); w.seen != [] && w.seen[|w.seen| - 1] == w.ring
  {
    hide LinesOf, Looked, NeedsBaseline;
  }

  /** So every row pushed since the account began, and every row whose content is no longer what that first look read,
      is at the client with its current content. */
  lemma NewAndChangedRowsArrive(h: Prints<Row>, ops: seq<Op>, i: nat)
    requires Apart(h, RowsOf(h, ops)) && ops != [] && ops[|ops| - 1].Look? && 1 <= i < LEN
    requires Run(h, ops).ring.rows[i] != h.blank && Run(h, ops).seen != [] && Sized(Run(h, ops).seen[0])
    requires !Holds(Run(h, ops).seen[0], PushOf(Run(h, ops).ring, i), Run(h, ops).ring.rows[i])
    ensures var w := Run(h, ops);
            Latest(w.lines, w.ring.instance, PushOf(w.ring, i)) == Some(w.ring.rows[i])
  {
    ReplayIsExact(h, ops, i);
  }

  lemma RunLast(h: Prints<Row>, before: seq<Op>, op: Op)
    ensures Run(h, before + [op]) == Applied(h, Run(h, before), op)
  {
    assert (before + [op])[..|before + [op]| - 1] == before;
  }

  /** Nothing that starts the client's account over: no other subscription, no new ring, no publish nobody hears. */
  predicate Continues(op: Op) {
    !op.Subscribe? && !op.Replace? && op != Look(false)
  }

  /** The feed has looked at this very ring. */
  predicate OnRing(w: World) {
    w.seen != [] && !NeedsBaseline(w.valid, w.memory, w.ring)
  }

  lemma StaysOnRing(h: Prints<Row>, w: World, op: Op)
    requires Tracked(h, w) && |w.memory.fp| == LEN && OnRing(w) && Continues(op)
    ensures var v := Applied(h, w, op);
            && OnRing(v) && v.seen[0] == w.seen[0]
            && v.ring.instance == w.ring.instance && v.ring.pushSeq >= w.ring.pushSeq
  {
    hide LinesOf, LinesPast, NoneOf, DeepBlank, PrintsOf;
  }

  /** From a subscription to a ring the feed was on, its account starts at the look before it, whatever was written. */
  lemma {:induction false} AccountStarts(h: Prints<Row>, before: seq<Op>, after: seq<Op>)
    requires OnRing(Run(h, before)) && forall k :: 0 <= k < |after| ==> Continues(after[k])
    ensures var w, v := Run(h, before), Run(h, before + [Subscribe] + after);
            && OnRing(v) && v.seen[0] == w.seen[|w.seen| - 1] && Sized(v.seen[0])
            && v.ring.instance == w.ring.instance && v.ring.pushSeq >= w.ring.pushSeq >= v.seen[0].pushSeq
    decreases |after|
  {
    hide Run, Applied, LinesPast, NoneOf, DeepBlank, PrintsOf;
    RunTracks(h, before);
    if after == [] {
      RunLast(h, before, Subscribe);
      assert before + [Subscribe] + after == before + [Subscribe];
      SubscribesOnRing(h, Run(h, before));
    } else {
      var n := |after| - 1;
      AccountStarts(h, before, after[..n]);
      var ops := before + [Subscribe] + after[..n];
      assert before + [Subscribe] + after == ops + [after[n]];
      RunLast(h, ops, after[n]);
      RunTracks(h, ops);
      StaysOnRing(h, Run(h, ops), after[n]);
    }
  }

  lemma SubscribesOnRing(h: Prints<Row>, w: World)
    requires Tracked(h, w) && |w.memory.fp| == LEN && OnRing(w)
    ensures var v := Applied(h, w, Subscribe); OnRing(v) && v.seen == [w.seen[|w.seen| - 1]] && v.ring == w.ring
  {
    hide LinesPast, NoneOf, DeepBlank, PrintsOf;
  }

  /** Every non-blank row pushed since a subscription, to the ring the feed was on, is at the client with its current
      content at the next heard publish, whatever was pushed, changed and cleared in between. */
  lemma PushedRowsArrive(h: Prints<Row>, before: seq<Op>, after: seq<Op>, i: nat)
    requires Apart(h, RowsOf(h, before + [Subscribe] + after)) && OnRing(Run(h, before)) && 1 <= i < LEN
    requires after != [] && after[|after| - 1] == Look(true) && forall k :: 0 <= k < |after| ==> Continues(after[k])
    requires Run(h, before + [Subscribe] + after).ring.rows[i] != h.blank
    requires PushOf(Run(h, before + [Subscribe] + after).ring, i) > Run(h, before).ring.pushSeq
    ensures var w := Run(h, before + [Subscribe] + after);
            Latest(w.lines, w.ring.instance, PushOf(w.ring, i)) == Some(w.ring.rows[i])
  {
    hide Run, Latest;
    AccountStarts(h, before, after);
    NewAndChangedRowsArrive(h, before + [Subscribe] + after, i);
  }

  /** And where the subscription followed a publish, so is every row whose content is no longer what the ring held at
      the subscription. */
  lemma ChangedRowsArrive(h: Prints<Row>, before: seq<Op>, after: seq<Op>, i: nat)
    requires Apart(h, RowsOf(h, before + [Subscribe] + after))
    requires before != [] && before[|before| - 1].Look? && 1 <= i < LEN
    requires after != [] && after[|after| - 1] == Look(true) && forall k :: 0 <= k < |after| ==> Continues(after[k])
    requires var w := Run(h, before + [Subscribe] + after);
             w.ring.rows[i] != h.blank && !Holds(Run(h, before).ring, PushOf(w.ring, i), w.ring.rows[i])
    ensures var w := Run(h, before + [Subscribe] + after);
            Latest(w.lines, w.ring.instance, PushOf(w.ring, i)) == Some(w.ring.rows[i])
  {
    hide Run, Latest;
    RunEndsLooked(h, before);
    RunEndsOnRing(h, before);
    AccountStarts(h, before, after);
    NewAndChangedRowsArrive(h, before + [Subscribe] + after, i);
  }

  lemma RunEndsOnRing(h: Prints<Row>, ops: seq<Op>)
    requires ops != [] && ops[|ops| - 1].Look?
    ensures OnRing(Run(h, ops))
  {
    hide LinesOf, PrintsOf;
  }

  lemma {:induction false} UnchangedSendsNothing(h: Prints<Row>, m: Memory, r: Ring<Row>, i: nat)
    requires Sized(r) && m.push == r.pushSeq && m.fp == PrintsOf(h, r) && 1 <= i <= LEN
    ensures Gathered(h, m, r, 0, i) == []
    decreases LEN - i
  {
    if i < LEN {
      UnchangedSendsNothing(h, m, r, i + 1);
    }
  }

  // ---- With the feed's own hash

  /** The feed as it is: a row's fingerprint is the FNV-1a hash of its bytes. */
  function Fnv(blank: Row): Prints<Row> {
    Prints((row: Row) => Fingerprint.Hash(Fingerprint.BASIS, row), blank)
  }

  ghost predicate OneByteOff(a: Row, b: Row) {
    |a| == |b| && exists at :: 0 <= at < |a| && a[at] != b[at] && a[..at] == b[..at] && a[at + 1..] == b[at + 1..]
  }

  /** Rows each of which differs from each other in one byte never collide under it. */
  lemma OneByteRowsApart(blank: Row, rows: set<Row>)
    requires blank in rows && forall a, b :: a in rows && b in rows && a != b ==> OneByteOff(a, b)
    ensures Apart(Fnv(blank), rows)
  {
    forall a, b | a in rows && b in rows && a != b ensures Fnv(blank).of(a) != Fnv(blank).of(b) {
      HashesApart(a, b);
    }
  }

  lemma HashesApart(a: Row, b: Row)
    requires OneByteOff(a, b)
    ensures Fingerprint.Hash(Fingerprint.BASIS, a) != Fingerprint.Hash(Fingerprint.BASIS, b)
  {
    var at :| 0 <= at < |a| && a[at] != b[at] && a[..at] == b[..at] && a[at + 1..] == b[at + 1..];
    forall i | 0 <= i < |a| && i != at ensures a[i] == b[i] {
      assert i < at ==> a[i] == a[..at][i] && b[i] == b[..at][i];
      assert i > at ==> a[i] == a[at + 1..][i - at - 1] && b[i] == b[at + 1..][i - at - 1];
    }
    Fingerprint.OneByteChangesHash(Fingerprint.BASIS, a, b, at);
  }

  /** A row's fields reach the feed as RowFingerprint hashes them, and rows that read the same are the same row. */
  lemma FnvOfFields(blank: Row, fields: seq<Fingerprint.Field>, other: seq<Fingerprint.Field>)
    requires |fields| == |other| && forall i :: 0 <= i < |fields| ==> Fingerprint.SameShape(fields[i], other[i])
    ensures var row := Fingerprint.RowBytes(fields); Fnv(blank).of(row) == Fingerprint.Hash(Fingerprint.BASIS, row)
    ensures Fingerprint.RowBytes(fields) == Fingerprint.RowBytes(other) <==>
            forall i :: 0 <= i < |fields| ==> Fingerprint.SameSeen(fields[i], other[i])
  {
    Fingerprint.RowBytesExact(fields, other);
  }

  /** So the feed with its own hash replays exactly, whatever was pushed, changed and cleared, rows that differ from
      each other and from the blank one a byte at a time. */
  lemma FnvReplayIsExact(blank: Row, ops: seq<Op>, i: nat)
    requires ops != [] && ops[|ops| - 1].Look? && 1 <= i < LEN
    requires var rows := RowsOf(Fnv(blank), ops); forall a, b :: a in rows && b in rows && a != b ==> OneByteOff(a, b)
    requires Run(Fnv(blank), ops).ring.rows[i] != blank
    ensures var w := Run(Fnv(blank), ops);
            Latest(w.lines, w.ring.instance, PushOf(w.ring, i))
            == if ReadOtherwise(w.seen, PushOf(w.ring, i), w.ring.rows[i]) then Some(w.ring.rows[i]) else None
  {
    hide Run, Latest, ReadOtherwise, RowsOf, OneByteOff;
    BlankStored(Fnv(blank), ops);
    OneByteRowsApart(blank, RowsOf(Fnv(blank), ops));
    ReplayIsExact(Fnv(blank), ops, i);
  }

  lemma {:induction false} BlankStored(h: Prints<Row>, ops: seq<Op>)
    ensures h.blank in RowsOf(h, ops)
    decreases |ops|
  {
    if ops != [] {
      BlankStored(h, ops[..|ops| - 1]);
    }
  }

  /** What does not arrive: a change undone before the next look. Here the row holds b when the client subscribes and
      a at the end, and no line says so. */
  lemma UndoneChangeIsMissed(h: Prints<Row>, a: Row, b: Row)
    requires a != b && a != h.blank && b != h.blank
    ensures var before := [Stage(a), PushRow, Look(true), Change(1, b), Subscribe];
            var after := before + [Change(1, a), Look(true)];
            Run(h, before).ring.rows[1] == b && Run(h, after).ring.rows[1] == a && Run(h, after).lines == []
  {
    hide Gathered, PrintsOf;
    var s2 := [Stage(a), PushRow];
    RunLast(h, [], Stage(a));
    RunLast(h, [Stage(a)], PushRow);
    assert [] + [Stage(a)] == [Stage(a)] && [Stage(a)] + [PushRow] == s2;
    var w2 := Run(h, s2);
    assert w2.ring.rows[1] == a && w2.ring.pushSeq == 1 && !w2.valid;
    RunLast(h, s2, Look(true));
    RunLast(h, s2 + [Look(true)], Change(1, b));
    RunLast(h, s2 + [Look(true), Change(1, b)], Subscribe);
    var before := [Stage(a), PushRow, Look(true), Change(1, b), Subscribe];
    assert s2 + [Look(true)] + [Change(1, b)] == s2 + [Look(true), Change(1, b)];
    assert s2 + [Look(true), Change(1, b)] + [Subscribe] == before;
    var w5 := Run(h, before);
    assert w5.lines == [] && w5.memory == Baseline(h, w2.ring) && w5.ring.rows == w2.ring.rows[1 := b];
    RunLast(h, before, Change(1, a));
    RunLast(h, before + [Change(1, a)], Look(true));
    assert before + [Change(1, a)] + [Look(true)] == before + [Change(1, a), Look(true)];
    var w6 := Run(h, before + [Change(1, a)]);
    assert w6.ring.rows == w2.ring.rows;
    SamePrints(h, w2.ring, w6.ring);
    UnchangedSendsNothing(h, w6.memory, w6.ring, 1);
  }

  /** What the client has of row i after a run: its content, if some look read it otherwise, and nothing if not. */
  ghost predicate ReplayExact(h: Prints<Row>, ops: seq<Op>, i: nat)
    requires 1 <= i < LEN
  {
    var w := Run(h, ops);
    Latest(w.lines, w.ring.instance, PushOf(w.ring, i))
    == if ReadOtherwise(w.seen, PushOf(w.ring, i), w.ring.rows[i]) then Some(w.ring.rows[i]) else None
  }

  /** Two rows that collide: the second, put in the first's place after a look, never reaches the client. */
  lemma CollisionIsMissed(h: Prints<Row>, a: Row, b: Row)
    requires a != b && b != h.blank && h.of(a) == h.of(b)
    ensures var ops := [Stage(a), PushRow, Look(true), Subscribe, Change(1, b), Look(true)];
            Run(h, ops).ring.rows[1] == b && !ReplayExact(h, ops, 1)
  {
    hide Run, Applied, PrintsOf, Gathered;
    var ops := [Stage(a), PushRow, Look(true), Subscribe, Change(1, b), Look(true)];
    assert ops[..1] == [] + [Stage(a)] && ops[..2] == ops[..1] + [PushRow] && ops[..3] == ops[..2] + [Look(true)];
    assert ops[..4] == ops[..3] + [Subscribe] && ops[..5] == ops[..4] + [Change(1, b)];
    assert ops == ops[..5] + [Look(true)];
    RunLast(h, [], Stage(a));
    RunLast(h, ops[..1], PushRow);
    RunLast(h, ops[..2], Look(true));
    RunLast(h, ops[..3], Subscribe);
    RunLast(h, ops[..4], Change(1, b));
    RunLast(h, ops[..5], Look(true));
    StartsUnlooked(h);
    FirstPush(h, Run(h, []), a);
    FirstLook(h, Run(h, ops[..2]));
    SubscribesTo(h, Run(h, ops[..3]));
    CollidingLook(h, Run(h, ops[..4]), a, b);
  }

  lemma FirstPush(h: Prints<Row>, w: World, a: Row)
    requires Sized(w.ring) && |w.memory.fp| == LEN && w.ring.pushSeq == 0
    ensures var v := Applied(h, Applied(h, w, Stage(a)), PushRow);
            v.ring.pushSeq == 1 && v.ring.rows[1] == a && v.valid == w.valid
  {
  }

  lemma FirstLook(h: Prints<Row>, w: World)
    requires Sized(w.ring) && |w.memory.fp| == LEN && !w.valid
    ensures var v := Applied(h, w, Look(true));
            v.ring == w.ring && v.seen == [w.ring] && v.memory == Baseline(h, w.ring) && v.valid
  {
    hide Gathered, PrintsOf;
  }

  lemma SubscribesTo(h: Prints<Row>, w: World)
    requires Sized(w.ring) && |w.memory.fp| == LEN && w.seen == [w.ring]
    ensures Applied(h, w, Subscribe) == w.(lines := [])
  {
  }

  lemma CollidingLook(h: Prints<Row>, w: World, a: Row, b: Row)
    requires Sized(w.ring) && |w.memory.fp| == LEN && w.ring.pushSeq == 1 && w.ring.rows[1] == a && w.valid
    requires w.seen == [w.ring] && w.memory == Baseline(h, w.ring) && w.lines == [] && a != b && h.of(a) == h.of(b)
    ensures var v := Applied(h, Applied(h, w, Change(1, b)), Look(true));
            v.ring.rows[1] == b && v.ring.pushSeq == 1 && v.lines == [] && ReadOtherwise(v.seen, 1, b)
  {
    hide Gathered;
    var x := Applied(h, w, Change(1, b));
    assert PrintsOf(h, x.ring) == PrintsOf(h, w.ring);
    UnchangedSendsNothing(h, x.memory, x.ring, 1);
    var v := Applied(h, x, Look(true));
    assert v.seen[0] == w.ring && !Holds(v.seen[0], 1, b);
  }

  /** The replay is exact in every run of these rows exactly when no two of them collide. */
  lemma ReplayExactIff(h: Prints<Row>, rows: set<Row>)
    requires h.blank in rows
    ensures (forall ops: seq<Op>, i | RowsOf(h, ops) <= rows && ops != [] && ops[|ops| - 1].Look? && 1 <= i < LEN
                             && Run(h, ops).ring.rows[i] != h.blank :: ReplayExact(h, ops, i))
            <==> Apart(h, rows)
  {
    hide Run, RowsOf, ReplayExact;
    if Apart(h, rows) {
      forall ops: seq<Op>, i | RowsOf(h, ops) <= rows && ops != [] && ops[|ops| - 1].Look? && 1 <= i < LEN
                      && Run(h, ops).ring.rows[i] != h.blank
        ensures ReplayExact(h, ops, i)
      {
        BlankStored(h, ops);
        ReplayIsExactly(h, ops, i);
      }
    } else {
      var a, b :| a in rows && b in rows && a != b && h.of(a) == h.of(b);
      var c, d := if b == h.blank then b else a, if b == h.blank then a else b;
      CollisionIsMissed(h, c, d);
      CollisionRows(h, c, d);
      var ops := [Stage(c), PushRow, Look(true), Subscribe, Change(1, d), Look(true)];
      assert RowsOf(h, ops) <= rows && !ReplayExact(h, ops, 1);
    }
  }

  lemma ReplayIsExactly(h: Prints<Row>, ops: seq<Op>, i: nat)
    requires Apart(h, RowsOf(h, ops)) && ops != [] && ops[|ops| - 1].Look? && 1 <= i < LEN
    requires Run(h, ops).ring.rows[i] != h.blank
    ensures ReplayExact(h, ops, i)
  {
    hide Run, RowsOf;
    ReplayIsExact(h, ops, i);
  }

  lemma CollisionRows(h: Prints<Row>, a: Row, b: Row)
    ensures RowsOf(h, [Stage(a), PushRow, Look(true), Subscribe, Change(1, b), Look(true)]) == {h.blank, a, b}
  {
    var ops := [Stage(a), PushRow, Look(true), Subscribe, Change(1, b), Look(true)];
    RowsOfLast(h, [], Stage(a));
    RowsOfLast(h, ops[..1], PushRow);
    RowsOfLast(h, ops[..2], Look(true));
    RowsOfLast(h, ops[..3], Subscribe);
    RowsOfLast(h, ops[..4], Change(1, b));
    RowsOfLast(h, ops[..5], Look(true));
    assert ops[..1] == [] + [Stage(a)] && ops[..2] == ops[..1] + [PushRow] && ops[..3] == ops[..2] + [Look(true)];
    assert ops[..4] == ops[..3] + [Subscribe] && ops[..5] == ops[..4] + [Change(1, b)];
    assert ops == ops[..5] + [Look(true)];
  }

  lemma RowsOfLast(h: Prints<Row>, before: seq<Op>, op: Op)
    ensures RowsOf(h, before + [op]) == RowsOf(h, before) + if op.Stage? || op.Change? then {op.row} else {}
  {
    assert (before + [op])[..|before + [op]| - 1] == before;
  }

  lemma SamePrints(h: Prints<Row>, r: Ring<Row>, s: Ring<Row>)
    requires Sized(r) && Sized(s) && r.rows == s.rows
    ensures PrintsOf(h, r) == PrintsOf(h, s)
  {
  }

  /** What does not arrive either: rows pushed into a new ring before the feed's first look at it. */
  lemma NewRingStartsFromItsFirstLook(h: Prints<Row>, a: Row, n: nat)
    requires n != 0
    ensures var ops := [Look(true), Subscribe, Replace(false, n), Stage(a), PushRow, Look(true)];
            Run(h, ops).ring.rows[1] == a && Run(h, ops).lines == []
  {
    hide Run, Applied;
    var ops := [Look(true), Subscribe, Replace(false, n), Stage(a), PushRow, Look(true)];
    ReplacedUnseen(h, n);
    assert ops[..4] == ops[..3] + [Stage(a)] && ops[..5] == ops[..4] + [PushRow] && ops == ops[..5] + [Look(true)];
    assert ops[..3] == [Look(true), Subscribe, Replace(false, n)];
    RunLast(h, ops[..3], Stage(a));
    RunLast(h, ops[..4], PushRow);
    RunLast(h, ops[..5], Look(true));
    PushedUnseen(h, Run(h, ops[..3]), a);
    LookedAfresh(h, Run(h, ops[..5]));
  }

  /** A subscriber with no lines, on a ring the feed has never looked at. */
  ghost predicate Unseen(w: World) {
    Sized(w.ring) && |w.memory.fp| == LEN && w.lines == [] && w.memory.instance != w.ring.instance
  }

  lemma ReplacedUnseen(h: Prints<Row>, n: nat)
    requires n != 0
    ensures Unseen(Run(h, [Look(true), Subscribe, Replace(false, n)]))
  {
    hide Run, LinesOf, PrintsOf;
    var ops := [Look(true), Subscribe, Replace(false, n)];
    assert ops[..1] == [] + [Look(true)] && ops[..2] == ops[..1] + [Subscribe] && ops == ops[..2] + [Replace(false, n)];
    StartsUnlooked(h);
    RunLast(h, [], Look(true));
    RunLast(h, ops[..1], Subscribe);
    RunLast(h, ops[..2], Replace(false, n));
  }

  lemma StartsUnlooked(h: Prints<Row>)
    ensures var w := Run(h, []);
            w.seen == [] && !w.valid && w.ring.instance == 0 && w.ring.pushSeq == 0 && w.drawn == {0}
  {
  }

  lemma PushedUnseen(h: Prints<Row>, w: World, a: Row)
    requires Unseen(w)
    ensures var v := Applied(h, Applied(h, w, Stage(a)), PushRow); Unseen(v) && v.ring.rows[1] == a
  {
  }

  lemma LookedAfresh(h: Prints<Row>, w: World)
    requires Unseen(w)
    ensures var v := Applied(h, w, Look(true)); v.lines == [] && v.ring == w.ring
  {
    hide Gathered, PrintsOf;
  }

  // ---- Announcements, identity and order

  /** A new line is the first one about its row. */
  ghost predicate NewComesFirst(lines: seq<Line<Row>>) {
    forall j, k :: 0 <= j < k < |lines| && !lines[k].update ==>
      lines[j].ring != lines[k].ring || lines[j].push != lines[k].push
  }

  lemma LookNewFirst(h: Prints<Row>, w: World)
    requires Tracked(h, w) && |w.memory.fp| == LEN && NewComesFirst(w.lines)
    ensures NewComesFirst(Applied(h, w, Look(true)).lines)
  {
    var batch := LinesOf(h, w.valid, w.memory, w.ring, 0, true);
    var all := w.lines + batch;
    if batch != [] {
      hide Gathered;
      GatheredReports(h, w.memory, w.ring, 0, 1);
      assert LinesPast(w.lines, w.seen[|w.seen| - 1], w.drawn);
      forall j, k | 0 <= j < k < |all| && !all[k].update
        ensures all[j].ring != all[k].ring || all[j].push != all[k].push
      {
        if k >= |w.lines| {
          BatchRange(h, w.memory, w.ring, 1, k - |w.lines|);
          if j < |w.lines| {
            assert all[j] == w.lines[j];
          }
        }
      }
    }
  }

  /** Over every run: a row is announced as new at most once, before any update of it; and every line is about a row
      that was pushed, so its push number never runs below 1. */
  lemma {:induction false} AnnouncementsAreUnique(h: Prints<Row>, ops: seq<Op>)
    ensures NewComesFirst(Run(h, ops).lines)
    ensures forall k :: 0 <= k < |Run(h, ops).lines| ==> Run(h, ops).lines[k].push >= 1
    decreases |ops|
  {
    if ops != [] {
      var before, op := ops[..|ops| - 1], ops[|ops| - 1];
      AnnouncementsAreUnique(h, before);
      RunTracks(h, before);
      var w := Run(h, before);
      if op == Look(true) {
        LookNewFirst(h, w);
        LinesArePushed(h, w);
      }
    }
  }

  /** A publish that is heard, and the last publish before it. */
  ghost predicate NextLook(ops: seq<Op>, before: nat, at: nat) {
    && before < at < |ops|
    && ops[before].Look? && ops[at] == Look(true)
    && forall k :: before < k < at ==> !ops[k].Look?
  }

  /** A line sent at one publish speaks of a row the ring holds there, in the ring the publish before it read, and is
      an update exactly when the row had been pushed when that one read it. */
  ghost predicate SentAt(h: Prints<Row>, line: Line<Row>, ops: seq<Op>, before: nat, at: nat)
    requires NextLook(ops, before, at)
  {
    var was, now := Run(h, ops[..before]).ring, Run(h, ops[..at]).ring;
    && line.ring == now.instance == was.instance
    && Holds(now, line.push, line.row)
    && (line.update <==> line.push <= was.pushSeq)
  }

  ghost predicate Sent(h: Prints<Row>, line: Line<Row>, ops: seq<Op>) {
    exists before, at :: NextLook(ops, before, at) && SentAt(h, line, ops, before, at)
  }

  /** The last look of a run the feed has an account of. */
  lemma {:induction false} LastLook(h: Prints<Row>, ops: seq<Op>) returns (j: nat)
    requires Run(h, ops).seen != []
    ensures j < |ops| && ops[j].Look? && forall k :: j < k < |ops| ==> !ops[k].Look?
    ensures Run(h, ops[..j]).ring == Run(h, ops).seen[|Run(h, ops).seen| - 1]
    decreases |ops|
  {
    hide Applied;
    var n := |ops| - 1;
    StartsUnlooked(h);
    SeenAfter(h, Run(h, ops[..n]), ops[n]);
    if ops[n].Look? {
      j := n;
    } else {
      j := LastLook(h, ops[..n]);
      assert ops[..j] == ops[..n][..j];
    }
  }

  /** A look is the last the account has, and nothing else is. */
  lemma SeenAfter(h: Prints<Row>, w: World, op: Op)
    requires Sized(w.ring) && |w.memory.fp| == LEN
    ensures var v := Applied(h, w, op);
            if op.Look? then v.seen != [] && v.seen[|v.seen| - 1] == w.ring
            else (v.seen == [] <==> w.seen == []) && (v.seen != [] ==> v.seen[|v.seen| - 1] == w.seen[|w.seen| - 1])
  {
    hide LinesOf, PrintsOf, Looked, NeedsBaseline, Written;
  }

  lemma LinesGrow(h: Prints<Row>, w: World, op: Op)
    requires Tracked(h, w) && |w.memory.fp| == LEN
    ensures var v := Applied(h, w, op); v.lines == [] || w.lines <= v.lines
    ensures |Applied(h, w, op).lines| > |w.lines| ==> op == Look(true) && OnRing(w)
  {
    hide Gathered, PrintsOf, LinesPast, NoneOf, DeepBlank, MovedOn;
  }

  lemma BatchSent(h: Prints<Row>, w: World, k: nat)
    requires Tracked(h, w) && |w.memory.fp| == LEN && OnRing(w) && |w.lines| <= k < |Applied(h, w, Look(true)).lines|
    ensures var line, was := Applied(h, w, Look(true)).lines[k], w.seen[|w.seen| - 1];
            && line.ring == w.ring.instance == was.instance
            && Holds(w.ring, line.push, line.row)
            && (line.update <==> line.push <= was.pushSeq)
  {
    hide Gathered, PrintsOf, LinesPast, NoneOf, DeepBlank, MovedOn;
    BatchRange(h, w.memory, w.ring, 1, k - |w.lines|);
  }

  /** Over every run, of every line a client has: it speaks of a row the ring held at some publish, and is an update
      exactly when the row had been pushed at the publish before. */
  lemma {:induction false} UpdateExactly(h: Prints<Row>, ops: seq<Op>, k: nat)
    requires k < |Run(h, ops).lines|
    ensures Sent(h, Run(h, ops).lines[k], ops)
    decreases |ops|
  {
    hide Applied, Holds;
    var n := |ops| - 1;
    var before, op := ops[..n], ops[n];
    var w := Run(h, before);
    RunTracks(h, before);
    LinesGrow(h, w, op);
    if k < |w.lines| {
      UpdateExactly(h, before, k);
      var b: nat, at: nat :| NextLook(before, b, at) && SentAt(h, w.lines[k], before, b, at);
      assert before[..b] == ops[..b] && before[..at] == ops[..at];
      assert NextLook(ops, b, at) && SentAt(h, Run(h, ops).lines[k], ops, b, at);
    } else {
      var b := LastLook(h, before);
      assert before[..b] == ops[..b];
      BatchSent(h, w, k);
      assert NextLook(ops, b, n) && SentAt(h, Run(h, ops).lines[k], ops, b, n);
    }
  }

  /** A heard publish announces every row pushed since the last one that does not read as blank: as new, with the
      content the ring holds, and never before; the one line about it is the only one the client has. */
  lemma PushIsAnnounced(h: Prints<Row>, before: seq<Op>, i: nat) returns (k: nat)
    requires OnRing(Run(h, before)) && 1 <= i < LEN
    requires var w := Run(h, before);
             h.of(w.ring.rows[i]) != h.of(h.blank) && PushOf(w.ring, i) > w.seen[|w.seen| - 1].pushSeq
    ensures var w, lines := Run(h, before), Run(h, before + [Look(true)]).lines;
            && |w.lines| <= k < |lines|
            && lines[k] == Line(w.ring.instance, 0, PushOf(w.ring, i), false, w.ring.rows[i])
            && forall j :: 0 <= j < |lines| && j != k ==>
                 lines[j].ring != w.ring.instance || lines[j].push != PushOf(w.ring, i)
  {
    hide Run, Gathered, PrintsOf, NoneOf, DeepBlank, Differs;
    var w := Run(h, before);
    RunTracks(h, before);
    RunLast(h, before, Look(true));
    var batch := Gathered(h, w.memory, w.ring, 0, 1);
    GatheredReports(h, w.memory, w.ring, 0, 1);
    PushedDiffers(h, w.memory, w.ring, i);
    var at :| 0 <= at < |batch| && batch[at].push == PushOf(w.ring, i);
    k := |w.lines| + at;
    var lines := Run(h, before + [Look(true)]).lines;
    assert lines == w.lines + batch;
    assert Reports(batch[at], w.memory, w.ring, 0);
    forall j | 0 <= j < |lines| && j != k
      ensures lines[j].ring != w.ring.instance || lines[j].push != PushOf(w.ring, i)
    {
      if j < |w.lines| {
        assert lines[j] == w.lines[j];
      } else {
        assert lines[j] == batch[j - |w.lines|];
      }
    }
  }

  lemma PushedDiffers(h: Prints<Row>, m: Memory, r: Ring<Row>, i: nat)
    requires |m.fp| == LEN && Sized(r) && 1 <= i < LEN
    requires h.of(r.rows[i]) != h.of(h.blank) && PushOf(r, i) > m.push
    ensures Differs(h, m, r, i)
  {
  }

  lemma LinesArePushed(h: Prints<Row>, w: World)
    requires Tracked(h, w) && |w.memory.fp| == LEN
    ensures var batch := LinesOf(h, w.valid, w.memory, w.ring, 0, true);
            forall k :: 0 <= k < |batch| ==> batch[k].push >= 1
  {
    var batch := LinesOf(h, w.valid, w.memory, w.ring, 0, true);
    forall k | 0 <= k < |batch| ensures batch[k].push >= 1 {
      BatchRange(h, w.memory, w.ring, 1, k);
    }
  }

  function Pushes(ops: seq<Op>): nat {
    if ops == [] then 0 else Pushes(ops[..|ops| - 1]) + if ops[|ops| - 1].PushRow? then 1 else 0
  }

  /** Nothing clears the rows, replaces the ring, or changes the row that starts at i, wherever it has moved to. */
  ghost predicate Undisturbed(ops: seq<Op>, i: nat) {
    forall k :: 0 <= k < |ops| ==>
      !ops[k].Clear? && !ops[k].Replace? && !(ops[k].Change? && ops[k].index == i + Pushes(ops[..k]))
  }

  /** A row keeps its ring, its push number and its content through any run that leaves it undisturbed, one place
      deeper for every push, until it falls off the end. */
  lemma {:induction false} RowKeepsIdentity(h: Prints<Row>, before: seq<Op>, after: seq<Op>, i: nat)
    requires 1 <= i && i + Pushes(after) < LEN && Undisturbed(after, i)
    ensures var r, s, at := Run(h, before).ring, Run(h, before + after).ring, i + Pushes(after);
            PushOf(s, at) == PushOf(r, i) && s.rows[at] == r.rows[i] && s.instance == r.instance
    decreases |after|
  {
    hide Run;
    if after == [] {
      assert before + after == before;
    } else {
      var n := |after| - 1;
      var rest := after[..n];
      assert forall k :: 0 <= k < n ==> after[..k] == rest[..k] && after[k] == rest[k];
      RowKeepsIdentity(h, before, rest, i);
      assert before + after == (before + rest) + [after[n]];
      RunLast(h, before + rest, after[n]);
      RowMoves(h, Run(h, before + rest), after[n], i + Pushes(rest));
    }
  }

  lemma RowMoves(h: Prints<Row>, w: World, op: Op, i: nat)
    requires Sized(w.ring) && |w.memory.fp| == LEN && 1 <= i && i + (if op.PushRow? then 1 else 0) < LEN
    requires !op.Clear? && !op.Replace? && !(op.Change? && op.index == i)
    ensures var r, s, at := w.ring, Applied(h, w, op).ring, i + if op.PushRow? then 1 else 0;
            PushOf(s, at) == PushOf(r, i) && s.rows[at] == r.rows[i] && s.instance == r.instance
  {
  }
}
