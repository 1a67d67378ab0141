/** Following a run's live stream (internal/chatapi/attach.go:50-373) over the broker's log
    (internal/session/streambroker.go:26-128). */
module Attach {
  import opened Provider
  import opened Emitter
  import opened EmitterProperties

  // ---- The broker's log -------------------------------------------------------------------

  /** A content frame; `event` is what it renders to, None when it renders to nothing. */
  datatype Entry = Entry(offset: int, run: string, event: Option<Event>)

  /** Offsets increase along the log. */
  ghost predicate Ordered(log: seq<Entry>) {
    forall a, b :: 0 <= a < b < |log| ==> log[a].offset < log[b].offset
  }

  /** One answer of the broker's ring: `published` frames exist, those below `floor` are
      evicted, or the read fails. */
  datatype Ring = Ring(published: nat, floor: int, fails: bool)

  function Filter(entries: seq<Entry>, p: Entry -> bool): seq<Entry> {
    if entries == [] then [] else
    var rest := Filter(entries[..|entries| - 1], p);
    if p(entries[|entries| - 1]) then rest + [entries[|entries| - 1]] else rest
  }

  /** broker.Read: the retained frames after `after`, oldest first. */
  function ReadAfter(log: seq<Entry>, ring: Ring, after: int): Option<seq<Entry>>
    requires ring.published <= |log|
  {
    if ring.fails then None
    else Some(Filter(log[..ring.published], (e: Entry) => e.offset > after && e.offset >= ring.floor))
  }

  predicate RunScoped(frameRun: string, run: string) {
    frameRun == run || frameRun == ""
  }

  // ---- What a client should see -------------------------------------------------------------

  /** Offsets strictly between `from` and `to` that were never delivered. */
  datatype Hole = Hole(from: int, to: int)

  predicate In(h: Hole, offset: int) { h.from < offset < h.to }

  ghost predicate Lost(holes: seq<Hole>, offset: int) {
    exists k :: 0 <= k < |holes| && In(holes[k], offset)
  }

  predicate Wanted(e: Entry, run: string, a: int, b: int) {
    RunScoped(e.run, run) && a < e.offset <= b
  }

  /** The run's frames with offset in (a, b], in log order, without those lost in a hole. */
  ghost function Frames(log: seq<Entry>, run: string, a: int, b: int, holes: seq<Hole>): seq<Entry> {
    Filter(log, (e: Entry) => Wanted(e, run, a, b) && !Lost(holes, e.offset))
  }

  // ---- What the client is told ----------------------------------------------------------------

  /** A lifecycle event of the bus; `event` is None for kinds that are not rendered. */
  datatype Note = Note(run: string, event: Option<Event>)

  datatype Told = Content(entry: Entry) | Life(note: Note)

  function Contents(told: seq<Told>): seq<Entry> {
    if told == [] then [] else
    var rest, t := Contents(told[..|told| - 1]), told[|told| - 1];
    if t.Content? then rest + [t.entry] else rest
  }

  function Notes(told: seq<Told>): seq<Note> {
    if told == [] then [] else
    var rest, t := Notes(told[..|told| - 1]), told[|told| - 1];
    if t.Life? then rest + [t.note] else rest
  }

  function EventOf(t: Told): Option<Event> {
    match t
    case Content(e) => e.event
    case Life(n) => n.event
  }

  /** The emitter's input. */
  function EventsOf(told: seq<Told>): seq<Event> {
    if told == [] then [] else
    var rest, e := EventsOf(told[..|told| - 1]), EventOf(told[|told| - 1]);
    if e.Some? then rest + [e.value] else rest
  }

  function AsContent(entries: seq<Entry>): (told: seq<Told>)
    ensures |told| == |entries|
  {
    seq(|entries|, k requires 0 <= k < |entries| => Content(entries[k]))
  }

  // ---- Facts about filters ----------------------------------------------------------------------

  lemma {:induction false} FilterSame(entries: seq<Entry>, p: Entry -> bool, q: Entry -> bool)
    requires forall e :: e in entries ==> p(e) == q(e)
    ensures Filter(entries, p) == Filter(entries, q)
  {
    if entries != [] {
      FilterSame(entries[..|entries| - 1], p, q);
      assert entries[|entries| - 1] in entries;
    }
  }

  lemma {:induction false} FilterMembers(entries: seq<Entry>, p: Entry -> bool)
    ensures forall e :: e in Filter(entries, p) <==> e in entries && p(e)
  {
    if entries != [] {
      FilterMembers(entries[..|entries| - 1], p);
      assert entries == entries[..|entries| - 1] + [entries[|entries| - 1]];
    }
  }

  lemma {:induction false} FilterOrdered(entries: seq<Entry>, p: Entry -> bool)
    requires Ordered(entries)
    ensures Ordered(Filter(entries, p))
  {
    if entries != [] {
      var front, last := entries[..|entries| - 1], entries[|entries| - 1];
      FilterOrdered(front, p);
      FilterMembers(front, p);
      assert forall e :: e in Filter(front, p) ==> e.offset < last.offset;
    }
  }

  /** Filtering what was filtered keeps what passes both. */
  lemma {:induction false} FilterTwice(entries: seq<Entry>, p: Entry -> bool, q: Entry -> bool, both: Entry -> bool)
    requires forall e :: e in entries ==> both(e) == (p(e) && q(e))
    ensures Filter(Filter(entries, p), q) == Filter(entries, both)
  {
    if entries != [] {
      var front, last := entries[..|entries| - 1], entries[|entries| - 1];
      assert last in entries;
      FilterTwice(front, p, q, both);
      if p(last) {
        assert (Filter(front, p) + [last])[..|Filter(front, p)|] == Filter(front, p);
      }
    }
  }

  /** Frames past n that are not wanted do not matter. */
  lemma {:induction false} FilterFront(entries: seq<Entry>, n: nat, p: Entry -> bool)
    requires n <= |entries| && forall k :: n <= k < |entries| ==> !p(entries[k])
    ensures Filter(entries[..n], p) == Filter(entries, p)
  {
    if n == |entries| {
      assert entries[..n] == entries;
    } else {
      FilterFront(entries[..|entries| - 1], n, p);
      assert entries[..|entries| - 1][..n] == entries[..n];
    }
  }

  lemma {:induction false} FilterNone(entries: seq<Entry>, p: Entry -> bool)
    requires forall e :: e in entries ==> !p(e)
    ensures Filter(entries, p) == []
  {
    if entries != [] {
      FilterNone(entries[..|entries| - 1], p);
      assert entries[|entries| - 1] in entries;
    }
  }

  /** An ordered list splits at an offset. */
  lemma {:induction false} FilterSplit(entries: seq<Entry>, at: int, p: Entry -> bool, low: Entry -> bool,
                                       high: Entry -> bool)
    requires Ordered(entries)
    requires forall e :: e in entries ==> low(e) == (p(e) && e.offset <= at) && high(e) == (p(e) && e.offset > at)
    ensures Filter(entries, p) == Filter(entries, low) + Filter(entries, high)
  {
    if entries != [] {
      var front, last := entries[..|entries| - 1], entries[|entries| - 1];
      assert last in entries && forall e :: e in front ==> e in entries;
      FilterSplit(front, at, p, low, high);
      if low(last) {
        assert forall e :: e in front ==> e.offset < last.offset;
        FilterNone(front, high);
        assert Filter(front, low) + [] == Filter(front, low);
      }
    }
  }

  /** In an ordered list an offset names one frame. */
  lemma {:induction false} FilterOne(entries: seq<Entry>, i: nat, p: Entry -> bool)
    requires Ordered(entries) && i < |entries|
    requires forall e :: e in entries ==> (p(e) <==> e == entries[i])
    ensures Filter(entries, p) == [entries[i]]
  {
    var front := entries[..i];
    assert forall k :: i < k < |entries| ==> entries[k] in entries && entries[k].offset > entries[i].offset;
    FilterFront(entries, i + 1, p);
    assert entries[..i + 1][..i] == front && entries[..i + 1][i] == entries[i] && entries[i] in entries;
    assert forall e :: e in front ==> e.offset < entries[i].offset;
    FilterNone(front, p);
  }

  // ---- The reader's position --------------------------------------------------------------------

  /** The client has been given exactly the run's frames after `after` up to `max`, but for
      the holes; no hole reaches past `max`. */
  ghost predicate Caught(log: seq<Entry>, run: string, after: int, max: int, holes: seq<Hole>, seen: seq<Entry>) {
    && after <= max && seen == Frames(log, run, after, max, holes)
    && forall k :: 0 <= k < |holes| ==> after <= holes[k].from && holes[k].to <= max + 1
  }

  /** Nothing in the hole could be read: the read failed, or the ring had evicted it all. */
  predicate Excuses(ring: Ring, h: Hole) { ring.fails || h.to <= ring.floor }

  /** At most one hole more, which that ring excuses. */
  ghost predicate LostIn(holes0: seq<Hole>, holes: seq<Hole>, ring: Ring) {
    holes == holes0 || (|holes| == |holes0| + 1 && holes0 <= holes && Excuses(ring, holes[|holes0|]))
  }

  /** One hole more: what was lost from `max` up to `to`. */
  function Missing(max: int, to: int): seq<Hole> {
    if to > max + 1 then [Hole(max, to)] else []
  }

  lemma LostMore(holes: seq<Hole>, max: int, to: int, offset: int)
    ensures Lost(holes + Missing(max, to), offset) <==> Lost(holes, offset) || max < offset < to
  {
    var more := holes + Missing(max, to);
    if Lost(holes, offset) {
      var k :| 0 <= k < |holes| && In(holes[k], offset);
      assert In(more[k], offset);
    } else if max < offset < to {
      assert In(more[|holes|], offset);
    }
  }

  /** Moving on from `max` to `next`: the frames between, without those below `to`. */
  lemma CaughtUp(log: seq<Entry>, run: string, after: int, max: int, holes: seq<Hole>, seen: seq<Entry>, to: int,
                 next: int, more: seq<Entry>)
    requires Ordered(log) && Caught(log, run, after, max, holes, seen)
    requires max <= next && to <= next + 1 && to >= max + 1
    requires more == Filter(log, (e: Entry) => Wanted(e, run, max, next) && e.offset >= to)
    ensures Caught(log, run, after, next, holes + Missing(max, to), seen + more)
  {
    var holes' := holes + Missing(max, to);
    forall e | e in log ensures Lost(holes', e.offset) <==> Lost(holes, e.offset) || max < e.offset < to {
      LostMore(holes, max, to, e.offset);
    }
    var low := (e: Entry) => Wanted(e, run, after, max) && !Lost(holes, e.offset);
    var high := (e: Entry) => Wanted(e, run, max, next) && e.offset >= to;
    FilterSplit(log, max, (e: Entry) => Wanted(e, run, after, next) && !Lost(holes', e.offset), low, high);
  }

  // ---- The source's loops -------------------------------------------------------------------

  /** Take what is new for this run from a list in offset order. */
  method Take(entries: seq<Entry>, run: string, max0: int) returns (taken: seq<Entry>, max: int)
    requires Ordered(entries)
    ensures taken == Filter(entries, (e: Entry) => RunScoped(e.run, run) && e.offset > max0)
    ensures max == if taken == [] then max0 else taken[|taken| - 1].offset
  {
    taken, max := [], max0;
    var wanted := (e: Entry) => RunScoped(e.run, run) && e.offset > max0;
    for k := 0 to |entries|
      invariant taken == Filter(entries[..k], wanted)
      invariant max == (if taken == [] then max0 else taken[|taken| - 1].offset)
      invariant max >= max0 && forall j :: k <= j < |entries| ==> entries[j].offset > max || max == max0
    {
      assert entries[..k + 1][..k] == entries[..k];
      if RunScoped(entries[k].run, run) && entries[k].offset > max {
        max := entries[k].offset;
        taken := taken + [entries[k]];
      }
    }
    assert entries[..|entries|] == entries;
  }

  /** The gap between `max0` and `next`: re-read and take what is new for this run. */
  method FillGap(log: seq<Entry>, ring: Ring, run: string, max0: int, next: int) returns (taken: seq<Entry>)
    requires Ordered(log) && ring.published <= |log| && max0 < next
    requires forall k :: ring.published <= k < |log| ==> log[k].offset >= next
    ensures taken == if ring.fails then []
                     else Filter(log, (e: Entry) => Wanted(e, run, max0, next - 1) && e.offset >= ring.floor)
  {
    taken := [];
    var read := ReadAfter(log, ring, max0);
    if read.None? {
      return;
    }
    var gap, max := read.value, max0;
    FilterOrdered(log[..ring.published], (e: Entry) => e.offset > max0 && e.offset >= ring.floor);
    var wanted := (e: Entry) => Wanted(e, run, max0, next - 1);
    for k := 0 to |gap|
      invariant taken == Filter(gap[..k], wanted)
      invariant max == max0 || (k > 0 && max0 < max <= gap[k - 1].offset)
    {
      assert gap[..k + 1][..k] == gap[..k];
      if RunScoped(gap[k].run, run) && gap[k].offset > max && gap[k].offset < next {
        max := gap[k].offset;
        taken := taken + [gap[k]];
      } else {
        assert gap[k].offset > max0 by {
          FilterMembers(log[..ring.published], (e: Entry) => e.offset > max0 && e.offset >= ring.floor);
          assert gap[k] in gap;
        }
      }
    }
    assert gap[..|gap|] == gap;
    GapFrames(log, ring, run, max0, next);
  }

  lemma GapFrames(log: seq<Entry>, ring: Ring, run: string, max0: int, next: int)
    requires Ordered(log) && ring.published <= |log|
    requires forall k :: ring.published <= k < |log| ==> log[k].offset >= next
    ensures Filter(Filter(log[..ring.published], (e: Entry) => e.offset > max0 && e.offset >= ring.floor),
                   (e: Entry) => Wanted(e, run, max0, next - 1)) ==
            Filter(log, (e: Entry) => Wanted(e, run, max0, next - 1) && e.offset >= ring.floor)
  {
    var both := (e: Entry) => Wanted(e, run, max0, next - 1) && e.offset >= ring.floor;
    FilterTwice(log[..ring.published], (e: Entry) => e.offset > max0 && e.offset >= ring.floor,
                (e: Entry) => Wanted(e, run, max0, next - 1), both);
    FilterFront(log, ring.published, both);
  }

  /** The ring still holds everything after `max`, or answers nothing at all. */
  predicate Whole(ring: Ring, max: int) {
    ring.fails || ring.floor <= max + 1
  }

  /** A read of everything retained moves the reader to the last frame it found. */
  lemma ReadFrames(log: seq<Entry>, ring: Ring, run: string, max0: int, taken: seq<Entry>, max: int)
    requires Ordered(log) && ring.published <= |log| && taken != []
    requires taken == Filter(Filter(log[..ring.published], (e: Entry) => e.offset > max0 && e.offset >= ring.floor),
                             (e: Entry) => RunScoped(e.run, run) && e.offset > max0)
    requires max == taken[|taken| - 1].offset
    ensures max > max0 && max >= ring.floor
    ensures taken == Filter(log, (e: Entry) => Wanted(e, run, max0, max) && e.offset >= ring.floor)
  {
    var front := log[..ring.published];
    var kept := (e: Entry) => RunScoped(e.run, run) && e.offset > max0 && e.offset >= ring.floor;
    FilterTwice(front, (e: Entry) => e.offset > max0 && e.offset >= ring.floor,
                (e: Entry) => RunScoped(e.run, run) && e.offset > max0, kept);
    LastKept(front, kept, max);
    KeptFrames(log, ring, run, max0, max);
  }

  /** In an ordered list the last frame kept has the highest offset. */
  lemma LastKept(front: seq<Entry>, kept: Entry -> bool, max: int)
    requires Ordered(front) && Filter(front, kept) != [] && max == Filter(front, kept)[|Filter(front, kept)| - 1].offset
    ensures forall e :: e in front && kept(e) ==> e.offset <= max
    ensures exists e :: e in front && kept(e) && e.offset == max
  {
    var taken := Filter(front, kept);
    FilterMembers(front, kept);
    FilterOrdered(front, kept);
    assert taken[|taken| - 1] in taken;
  }

  lemma KeptFrames(log: seq<Entry>, ring: Ring, run: string, max0: int, max: int)
    requires Ordered(log) && ring.published <= |log|
    requires forall e :: e in log[..ring.published] && RunScoped(e.run, run) && e.offset > max0 ==>
               e.offset >= ring.floor ==> e.offset <= max
    requires exists e :: e in log[..ring.published] && e.offset == max
    ensures Filter(log[..ring.published],
                   (e: Entry) => RunScoped(e.run, run) && e.offset > max0 && e.offset >= ring.floor) ==
            Filter(log, (e: Entry) => Wanted(e, run, max0, max) && e.offset >= ring.floor)
  {
    var front := log[..ring.published];
    var wanted := (e: Entry) => Wanted(e, run, max0, max) && e.offset >= ring.floor;
    FilterSame(front, (e: Entry) => RunScoped(e.run, run) && e.offset > max0 && e.offset >= ring.floor, wanted);
    assert forall k :: ring.published <= k < |log| ==> log[k].offset > max;
    FilterFront(log, ring.published, wanted);
  }

  /** How far a read of everything retained takes the reader. */
  function CaughtUpTo(log: seq<Entry>, ring: Ring, run: string, max0: int): int
    requires ring.published <= |log|
  {
    match ReadAfter(log, ring, max0)
    case None => max0
    case Some(read) =>
      var taken := Filter(read, (e: Entry) => RunScoped(e.run, run) && e.offset > max0);
      if taken == [] then max0 else taken[|taken| - 1].offset
  }

  method CatchUp(log: seq<Entry>, ring: Ring, run: string, max0: int, ghost after: int, ghost holes0: seq<Hole>,
                 ghost seen: seq<Entry>)
    returns (taken: seq<Entry>, max: int, ghost holes: seq<Hole>)
    requires Ordered(log) && ring.published <= |log| && Caught(log, run, after, max0, holes0, seen)
    ensures Caught(log, run, after, max, holes, seen + taken) && max >= max0
    ensures (Whole(ring, max0) ==> holes == holes0) && LostIn(holes0, holes, ring)
    ensures max == CaughtUpTo(log, ring, run, max0)
  {
    taken, max, holes := [], max0, holes0;
    assert seen + [] == seen;
    var read := ReadAfter(log, ring, max0);
    if read.Some? {
      FilterOrdered(log[..ring.published], (e: Entry) => e.offset > max0 && e.offset >= ring.floor);
      taken, max := Take(read.value, run, max0);
      if taken != [] {
        ReadFrames(log, ring, run, max0, taken, max);
        ghost var to := if ring.floor <= max0 then max0 + 1 else ring.floor;
        FilterSame(log, (e: Entry) => Wanted(e, run, max0, max) && e.offset >= ring.floor,
                   (e: Entry) => Wanted(e, run, max0, max) && e.offset >= to);
        CaughtUp(log, run, after, max0, holes0, seen, to, max, taken);
        holes := holes0 + Missing(max0, to);
      }
    }
  }

  /** A frame of the live channel is new for this client. */
  predicate IsNew(e: Entry, run: string, max: int) {
    RunScoped(e.run, run) && e.offset > max
  }

  /** One new frame, when everything from `max` to it was lost or is not the run's. */
  lemma OneFrame(log: seq<Entry>, run: string, after: int, max: int, holes: seq<Hole>, seen: seq<Entry>, i: nat)
    requires Ordered(log) && i < |log| && Caught(log, run, after, max, holes, seen) && IsNew(log[i], run, max)
    ensures Caught(log, run, after, log[i].offset, holes + Missing(max, log[i].offset), seen + [log[i]])
  {
    var next := log[i].offset;
    forall e | e in log ensures (Wanted(e, run, max, next) && e.offset >= next) <==> e == log[i] {
    }
    FilterOne(log, i, (e: Entry) => Wanted(e, run, max, next) && e.offset >= next);
    CaughtUp(log, run, after, max, holes, seen, next, next, [log[i]]);
  }

  /** A live frame: skipped unless new; a hole before it is re-read first. Nothing is lost
      unless that read fails or the gap was evicted. */
  method OnFrame(log: seq<Entry>, i: nat, ring: Ring, run: string, max0: int, ghost after: int,
                 ghost holes0: seq<Hole>, ghost seen: seq<Entry>)
    returns (taken: seq<Entry>, max: int, ghost holes: seq<Hole>)
    requires Ordered(log) && i < ring.published <= |log| && Caught(log, run, after, max0, holes0, seen)
    ensures Caught(log, run, after, max, holes, seen + taken) && max >= max0
    ensures (!ring.fails && ring.floor <= max0 + 1 ==> holes == holes0) && LostIn(holes0, holes, ring)
    ensures IsNew(log[i], run, max0) <==> taken != []
    ensures taken != [] ==> taken[|taken| - 1] == log[i]
    ensures max == if IsNew(log[i], run, max0) then log[i].offset else max0
  {
    taken, max, holes := [], max0, holes0;
    assert seen + [] == seen;
    var e := log[i];
    if !RunScoped(e.run, run) || e.offset <= max0 {
      return;
    }
    if e.offset > max0 + 1 {
      taken := FillGap(log, ring, run, max0, e.offset);
      ghost var to := if ring.fails || ring.floor > e.offset then e.offset
                      else if ring.floor <= max0 then max0 + 1 else ring.floor;
      Filled(log, ring, run, max0, e.offset, taken, to);
      CaughtUp(log, run, after, max0, holes0, seen, to, e.offset - 1, taken);
      holes := holes0 + Missing(max0, to);
    }
    max := e.offset;
    OneFrame(log, run, after, max - 1, holes, seen + taken, i);
    assert holes + Missing(max - 1, max) == holes;
    assert seen + (taken + [e]) == seen + taken + [e];
    taken := taken + [e];
  }

  lemma Filled(log: seq<Entry>, ring: Ring, run: string, max0: int, next: int, taken: seq<Entry>, to: int)
    requires to == if ring.fails || ring.floor > next then next else if ring.floor <= max0 then max0 + 1 else ring.floor
    requires taken == if ring.fails then []
                      else Filter(log, (e: Entry) => Wanted(e, run, max0, next - 1) && e.offset >= ring.floor)
    requires next > max0
    ensures taken == Filter(log, (e: Entry) => Wanted(e, run, max0, next - 1) && e.offset >= to)
  {
    if ring.fails {
      FilterNone(log, (e: Entry) => Wanted(e, run, max0, next - 1) && e.offset >= to);
    } else {
      FilterSame(log, (e: Entry) => Wanted(e, run, max0, next - 1) && e.offset >= ring.floor,
                 (e: Entry) => Wanted(e, run, max0, next - 1) && e.offset >= to);
    }
  }

  // ---- Draining before the stream is settled ------------------------------------------------

  predicate OnLog(log: seq<Entry>, queue: seq<nat>) {
    forall k :: 0 <= k < |queue| ==> queue[k] < |log|
  }

  function QueueMax(log: seq<Entry>, queue: seq<nat>, run: string, max: int): (m: int)
    requires OnLog(log, queue)
    ensures m >= max
  {
    if queue == [] then max else
    var m, e := QueueMax(log, queue[..|queue| - 1], run, max), log[queue[|queue| - 1]];
    if IsNew(e, run, m) then e.offset else m
  }

  /** What the queued frames skip: no hole is looked for here. */
  function QueueHoles(log: seq<Entry>, queue: seq<nat>, run: string, max: int): seq<Hole>
    requires OnLog(log, queue)
  {
    if queue == [] then [] else
    var rest := queue[..|queue| - 1];
    var m, e := QueueMax(log, rest, run, max), log[queue[|queue| - 1]];
    if IsNew(e, run, m) then QueueHoles(log, rest, run, max) + Missing(m, e.offset) else QueueHoles(log, rest, run, max)
  }

  /** What is still buffered when the stream is settled: queued content frames, whether the
      channel is then found closed, the ring, queued lifecycle events, and the run's status
      if it can be looked up. */
  datatype Drain = Drain(queue: seq<nat>, closed: bool, ring: Ring, notes: seq<Note>, status: Option<Status>)

  datatype Status = RunActive | RunSucceeded | RunFailed | RunCancelled

  /** How far a drain of everything retained takes the reader: the queue, and then the ring
      unless the channel is found closed. */
  function DrainedTo(log: seq<Entry>, drain: Drain, run: string, max: int): int
    requires drain.ring.published <= |log| && OnLog(log, drain.queue)
  {
    var m := QueueMax(log, drain.queue, run, max);
    if drain.closed then m else CaughtUpTo(log, drain.ring, run, m)
  }

  method DrainContent(log: seq<Entry>, drain: Drain, run: string, max0: int, ghost after: int, ghost holes0: seq<Hole>,
                      ghost seen: seq<Entry>)
    returns (taken: seq<Entry>, max: int, ghost holes: seq<Hole>)
    requires Ordered(log) && drain.ring.published <= |log| && OnLog(log, drain.queue)
    requires Caught(log, run, after, max0, holes0, seen)
    ensures Caught(log, run, after, max, holes, seen + taken) && max >= max0
    ensures Whole(drain.ring, max0) ==> holes == holes0 + QueueHoles(log, drain.queue, run, max0)
    ensures LostIn(holes0 + QueueHoles(log, drain.queue, run, max0), holes, drain.ring)
    ensures max == DrainedTo(log, drain, run, max0)
  {
    var queue := drain.queue;
    taken, max, holes := [], max0, holes0;
    assert seen + [] == seen && holes0 + [] == holes0;
    for k := 0 to |queue|
      invariant Caught(log, run, after, max, holes, seen + taken)
      invariant max == QueueMax(log, queue[..k], run, max0)
      invariant holes == holes0 + QueueHoles(log, queue[..k], run, max0)
    {
      assert queue[..k + 1][..k] == queue[..k];
      var e := log[queue[k]];
      if !RunScoped(e.run, run) || e.offset <= max {
        continue;
      }
      OneFrame(log, run, after, max, holes, seen + taken, queue[k]);
      assert seen + taken + [e] == seen + (taken + [e]);
      assert holes0 + QueueHoles(log, queue[..k], run, max0) + Missing(max, e.offset) ==
               holes0 + (QueueHoles(log, queue[..k], run, max0) + Missing(max, e.offset));
      holes := holes + Missing(max, e.offset);
      max := e.offset;
      taken := taken + [e];
    }
    assert queue[..|queue|] == queue;
    if !drain.closed {
      var more;
      more, max, holes := CatchUp(log, drain.ring, run, max, after, holes, seen + taken);
      assert seen + taken + more == seen + (taken + more);
      taken := taken + more;
    }
  }

  /** The lifecycle events of this run among the first n. */
  function Own(notes: seq<Note>, run: string): seq<Note> {
    if notes == [] then [] else
    var rest, n := Own(notes[..|notes| - 1], run), notes[|notes| - 1];
    if n.run == run then rest + [n] else rest
  }

  method DrainLifecycle(notes: seq<Note>, run: string) returns (own: seq<Note>)
    ensures own == Own(notes, run)
  {
    own := [];
    for k := 0 to |notes|
      invariant own == Own(notes[..k], run)
    {
      assert notes[..k + 1][..k] == notes[..k];
      if notes[k].run != run {
        continue;
      }
      own := own + [notes[k]];
    }
    assert notes[..|notes|] == notes;
  }

  function AsLife(notes: seq<Note>): (told: seq<Told>)
    ensures |told| == |notes|
  {
    seq(|notes|, k requires 0 <= k < |notes| => Life(notes[k]))
  }

  lemma ToldOne(told: seq<Told>, t: Told)
    ensures Contents(told + [t]) == if t.Content? then Contents(told) + [t.entry] else Contents(told)
    ensures Notes(told + [t]) == if t.Life? then Notes(told) + [t.note] else Notes(told)
  {
    assert (told + [t])[..|told|] == told;
  }

  lemma AsContentLast(told: seq<Told>, entries: seq<Entry>)
    requires entries != []
    ensures told + AsContent(entries) == told + AsContent(entries[..|entries| - 1]) + [Content(entries[|entries| - 1])]
  {
  }

  lemma {:induction false} ToldContent(told: seq<Told>, entries: seq<Entry>)
    ensures Contents(told + AsContent(entries)) == Contents(told) + entries
    ensures Notes(told + AsContent(entries)) == Notes(told)
  {
    if entries == [] {
      assert told + AsContent(entries) == told;
    } else {
      var front, last := entries[..|entries| - 1], entries[|entries| - 1];
      ToldContent(told, front);
      ToldOne(told + AsContent(front), Content(last));
      AsContentLast(told, entries);
    }
  }

  lemma AsLifeLast(told: seq<Told>, notes: seq<Note>)
    requires notes != []
    ensures told + AsLife(notes) == told + AsLife(notes[..|notes| - 1]) + [Life(notes[|notes| - 1])]
  {
  }

  lemma {:induction false} ToldLife(told: seq<Told>, notes: seq<Note>)
    ensures Contents(told + AsLife(notes)) == Contents(told)
    ensures Notes(told + AsLife(notes)) == Notes(told) + notes
  {
    if notes == [] {
      assert told + AsLife(notes) == told;
    } else {
      var front, last := notes[..|notes| - 1], notes[|notes| - 1];
      ToldLife(told, front);
      ToldOne(told + AsLife(front), Life(last));
      AsLifeLast(told, notes);
    }
  }

  // ---- The attach loop ------------------------------------------------------------------------

  datatype Step =
    | Disconnected
    | Beat
    | Tick(silent: bool, due: bool, active: bool)
    | Noted(note: Note)
    | NotesClosed
    | Delivered(index: nat, ring: Ring)
    | ContentClosed

  /** Everything the environment decides for one attach: the run's status beforehand, the
      replayed lifecycle, the catch-up read, whether the run is still active just after
      subscribing, what the select delivers, and what is left to drain. */
  datatype Script = Script(status: Status, replay: Option<seq<Note>>, catchUp: Ring, active: bool, steps: seq<Step>,
                           drain: Drain)

  predicate Possible(log: seq<Entry>, script: Script) {
    && script.catchUp.published <= |log| && script.drain.ring.published <= |log|
    && OnLog(log, script.drain.queue)
    && (forall k :: 0 <= k < |script.steps| && script.steps[k].Delivered? ==>
          script.steps[k].index < script.steps[k].ring.published <= |log|)
  }

  /** Nothing after `after` is evicted and no gap read fails. */
  predicate Retained(script: Script, after: int) {
    && Whole(script.catchUp, after) && Whole(script.drain.ring, after)
    && (forall k :: 0 <= k < |script.steps| && script.steps[k].Delivered? ==>
          !script.steps[k].ring.fails && script.steps[k].ring.floor <= after + 1)
  }

  predicate TerminalNote(n: Note) {
    n.event == Some(Done) || n.event == Some(Cancelled) || (n.event.Some? && n.event.value.Error?)
  }

  predicate ReportsEnd(s: Step, run: string) {
    s.Noted? && s.note.run == run && TerminalNote(s.note)
  }

  ghost predicate Reported(steps: seq<Step>, k: nat, run: string)
    requires k <= |steps|
  {
    exists j :: 0 <= j < k && ReportsEnd(steps[j], run)
  }

  /** Step k settles the stream: the content channel closed, or a tick after the run's
      terminal event or, in silence, after the run was found inactive. */
  ghost predicate Settles(steps: seq<Step>, k: nat, run: string)
    requires k < |steps|
  {
    match steps[k]
    case ContentClosed => true
    case Tick(silent, due, active) => Reported(steps, k, run) || (silent && due && !active)
    case _ => false
  }

  function Heard(steps: seq<Step>, n: nat, run: string): seq<Note>
    requires n <= |steps|
  {
    if n == 0 then [] else
    var rest := Heard(steps, n - 1, run);
    if steps[n - 1].Noted? && steps[n - 1].note.run == run then rest + [steps[n - 1].note] else rest
  }

  /** How far following takes the reader: each new frame of the run moves it. */
  ghost function FollowedTo(log: seq<Entry>, script: Script, n: nat, run: string, after: int): int
    requires Possible(log, script) && n <= |script.steps|
  {
    if n == 0 then CaughtUpTo(log, script.catchUp, run, after)
    else
      var m, step := FollowedTo(log, script, n - 1, run, after), script.steps[n - 1];
      if step.Delivered? && IsNew(log[step.index], run, m) then log[step.index].offset else m
  }

  /** What one select step tells the client: the run's own event, or a new frame of the run
      behind the frames it had missed. */
  ghost predicate StepShown(log: seq<Entry>, run: string, step: Step, max: int, told0: seq<Told>, told: seq<Told>)
    requires step.Delivered? ==> step.index < |log|
  {
    && told0 <= told
    && match step
       case Noted(note) => told == if note.run == run then told0 + [Life(note)] else told0
       case Delivered(i, _) =>
         if IsNew(log[i], run, max) then
           |told| > |told0| && told[|told| - 1] == Content(log[i]) &&
           forall k :: |told0| <= k < |told| ==> told[k].Content?
         else told == told0
       case _ => told == told0
  }

  /** The client was told the replayed events and what was caught up on first, and then what
      each step shows, in order. */
  ghost predicate InOrder(log: seq<Entry>, run: string, after: int, script: Script, k: nat, told: seq<Told>)
    requires Possible(log, script) && k <= |script.steps|
  {
    if k == 0 then exists frames :: told == AsLife(Replayed(script)) + AsContent(frames)
    else
      exists n: nat :: n <= |told| && InOrder(log, run, after, script, k - 1, told[..n]) &&
                       StepShown(log, run, script.steps[k - 1], FollowedTo(log, script, k - 1, run, after), told[..n],
                                 told)
  }

  /** A settled stream ends with what was still buffered: frames, and then the run's events. */
  ghost predicate SettledInOrder(log: seq<Entry>, run: string, after: int, script: Script, k: nat, told: seq<Told>)
    requires Possible(log, script) && k <= |script.steps|
  {
    exists n: nat, frames ::
      n <= |told| && InOrder(log, run, after, script, k, told[..n]) &&
      told[n..] == AsContent(frames) + AsLife(Own(script.drain.notes, run))
  }

  /** The client was told everything in the order in which it came up, and live frames at once. */
  ghost predicate ShownInOrder(log: seq<Entry>, run: string, after: int, script: Script, a: Attached, followed: int)
    requires Possible(log, script)
  {
    && a.read <= |script.steps| && followed == FollowedTo(log, script, a.read, run, after)
    && if a.finish.Some? then SettledInOrder(log, run, after, script, a.read, a.told)
       else InOrder(log, run, after, script, a.read, a.told)
  }

  lemma InOrderNext(log: seq<Entry>, run: string, after: int, script: Script, k: nat, told0: seq<Told>,
                    told: seq<Told>)
    requires Possible(log, script) && k < |script.steps| && InOrder(log, run, after, script, k, told0)
    requires StepShown(log, run, script.steps[k], FollowedTo(log, script, k, run, after), told0, told)
    ensures InOrder(log, run, after, script, k + 1, told)
  {
    assert told[..|told0|] == told0;
  }

  lemma SettlesInOrder(log: seq<Entry>, run: string, after: int, script: Script, k: nat, told0: seq<Told>,
                       frames: seq<Entry>, told: seq<Told>)
    requires Possible(log, script) && k <= |script.steps| && InOrder(log, run, after, script, k, told0)
    requires told == told0 + AsContent(frames) + AsLife(Own(script.drain.notes, run))
    ensures SettledInOrder(log, run, after, script, k, told)
  {
    Rest(told0, AsContent(frames), AsLife(Own(script.drain.notes, run)), told);
  }

  lemma Rest(a: seq<Told>, b: seq<Told>, c: seq<Told>, whole: seq<Told>)
    requires whole == a + b + c
    ensures |a| <= |whole| && whole[..|a|] == a && whole[|a|..] == b + c
  {
  }

  function Replayed(script: Script): seq<Note> {
    if script.replay.Some? then script.replay.value else []
  }

  /** The finish reason: the one the emitter latched, else the run's status. */
  function SettleReason(latched: string, status: Option<Status>): string {
    if latched != "" then latched
    else match status
      case Some(RunFailed) => "error"
      case Some(RunCancelled) => "other"
      case _ => "stop"
  }

  function LatchedBy(told: seq<Told>): string {
    EncodeAll(EventsOf(told)).flags.finishReason
  }

  method Settle(log: seq<Entry>, drain: Drain, run: string, told0: seq<Told>, max0: int, ghost after: int,
                ghost holes0: seq<Hole>)
    returns (told: seq<Told>, max: int, reason: string, ghost holes: seq<Hole>)
    requires Ordered(log) && drain.ring.published <= |log| && OnLog(log, drain.queue)
    requires Caught(log, run, after, max0, holes0, Contents(told0))
    ensures Caught(log, run, after, max, holes, Contents(told)) &&
            Notes(told) == Notes(told0) + Own(drain.notes, run) && max >= max0
    ensures Whole(drain.ring, max0) ==> holes == holes0 + QueueHoles(log, drain.queue, run, max0)
    ensures LostIn(holes0 + QueueHoles(log, drain.queue, run, max0), holes, drain.ring)
    ensures max == DrainedTo(log, drain, run, max0)
    ensures exists frames :: told == told0 + AsContent(frames) + AsLife(Own(drain.notes, run))
    ensures reason == SettleReason(LatchedBy(told), drain.status)
  {
    var taken;
    taken, max, holes := DrainContent(log, drain, run, max0, after, holes0, Contents(told0));
    ToldContent(told0, taken);
    var own := DrainLifecycle(drain.notes, run);
    ToldLife(told0 + AsContent(taken), own);
    told := told0 + AsContent(taken) + AsLife(own);
    reason := SettleReason(LatchedBy(told), drain.status);
  }

  /** How an attach ended. `read` is the number of select steps taken. */
  datatype Attached = Attached(told: seq<Told>, max: int, read: nat, finish: Option<string>)

  /** The run's frames after `after` up to `max`, with the holes left by following (none when
      everything is retained) and those left by the final drain. */
  ghost predicate Delivers(log: seq<Entry>, run: string, after: int, script: Script, a: Attached, followed: int,
                           lost: seq<Hole>)
    requires Possible(log, script)
  {
    && Caught(log, run, after, a.max, lost, Contents(a.told)) && after <= followed <= a.max
    && (script.status == RunActive ==> LossesExcused(log, run, script, a, followed, lost))
    && (a.finish.Some? && script.status == RunActive ==> a.max == DrainedTo(log, script.drain, run, followed))
    && (Retained(script, after) ==>
          lost == if a.finish.Some? && script.status == RunActive then
                    QueueHoles(log, script.drain.queue, run, followed)
                  else [])
  }

  /** A select step that does not settle the stream. */
  method OnStep(log: seq<Entry>, run: string, step: Step, told0: seq<Told>, max0: int, ghost after: int,
                ghost holes0: seq<Hole>)
    returns (told: seq<Told>, max: int, ghost holes: seq<Hole>)
    requires Ordered(log) && (step.Delivered? ==> step.index < step.ring.published <= |log|)
    requires Caught(log, run, after, max0, holes0, Contents(told0))
    ensures Caught(log, run, after, max, holes, Contents(told)) && max >= max0
    ensures step.Delivered? && !step.ring.fails && step.ring.floor <= max0 + 1 ==> holes == holes0
    ensures if step.Delivered? then LostIn(holes0, holes, step.ring) else holes == holes0
    ensures Notes(told) == if step.Noted? && step.note.run == run then Notes(told0) + [step.note] else Notes(told0)
    ensures StepShown(log, run, step, max0, told0, told)
    ensures max == if step.Delivered? && IsNew(log[step.index], run, max0) then log[step.index].offset else max0
  {
    told, max, holes := told0, max0, holes0;
    if step.Noted? && step.note.run == run {
      ToldLife(told, [step.note]);
      told := told + AsLife([step.note]);
    } else if step.Delivered? {
      var taken;
      taken, max, holes := OnFrame(log, step.index, step.ring, run, max, after, holes, Contents(told));
      ToldContent(told, taken);
      told := told + AsContent(taken);
    }
  }

  /** Some ring read so far excuses the hole. */
  ghost predicate Excused(script: Script, k: nat, h: Hole)
    requires k <= |script.steps|
  {
    Excuses(script.catchUp, h) ||
    exists i :: 0 <= i < k && script.steps[i].Delivered? && Excuses(script.steps[i].ring, h)
  }

  ghost predicate AllExcused(script: Script, k: nat, lost: seq<Hole>)
    requires k <= |script.steps|
  {
    forall j :: 0 <= j < |lost| ==> Excused(script, k, lost[j])
  }

  lemma ExcusedNext(script: Script, k: nat, lost0: seq<Hole>, lost: seq<Hole>)
    requires k < |script.steps| && AllExcused(script, k, lost0)
    requires if script.steps[k].Delivered? then LostIn(lost0, lost, script.steps[k].ring) else lost == lost0
    ensures AllExcused(script, k + 1, lost)
  {
    forall j | 0 <= j < |lost| ensures Excused(script, k + 1, lost[j]) {
      if j < |lost0| {
        assert lost[j] == lost0[j] && Excused(script, k, lost0[j]);
      } else {
        assert script.steps[k].Delivered? && Excuses(script.steps[k].ring, lost[j]);
      }
    }
  }

  /** What the finished stream lost could not be read when it was looked for, or was overtaken
      in the queue of the final drain. */
  ghost predicate LossesExcused(log: seq<Entry>, run: string, script: Script, a: Attached, followed: int,
                                lost: seq<Hole>)
    requires Possible(log, script)
  {
    a.read <= |script.steps| &&
    forall j :: 0 <= j < |lost| ==>
      || Excused(script, a.read, lost[j])
      || (a.finish.Some? &&
          (Excuses(script.drain.ring, lost[j]) || lost[j] in QueueHoles(log, script.drain.queue, run, followed)))
  }

  lemma DrainExcused(log: seq<Entry>, run: string, script: Script, a: Attached, followed: int, lost0: seq<Hole>,
                     lost: seq<Hole>)
    requires Possible(log, script) && a.read <= |script.steps| && a.finish.Some? && AllExcused(script, a.read, lost0)
    requires LostIn(lost0 + QueueHoles(log, script.drain.queue, run, followed), lost, script.drain.ring)
    ensures LossesExcused(log, run, script, a, followed, lost)
  {
    var queued := QueueHoles(log, script.drain.queue, run, followed);
    forall j | 0 <= j < |lost|
      ensures Excused(script, a.read, lost[j]) || Excuses(script.drain.ring, lost[j]) || lost[j] in queued {
      if j < |lost0| {
        assert lost[j] == (lost0 + queued)[j] == lost0[j] && Excused(script, a.read, lost0[j]);
      } else if j < |lost0| + |queued| {
        assert lost[j] == (lost0 + queued)[j] == queued[j - |lost0|];
      }
    }
  }

  /** Where the follower stands after k steps. */
  ghost predicate Following(log: seq<Entry>, run: string, after: int, script: Script, k: nat, told: seq<Told>,
                            max: int, lost: seq<Hole>, notes0: seq<Note>)
    requires Possible(log, script) && k <= |script.steps|
  {
    Caught(log, run, after, max, lost, Contents(told)) && (Retained(script, after) ==> lost == []) &&
    Notes(told) == notes0 + Heard(script.steps, k, run) &&
    AllExcused(script, k, lost) && max == FollowedTo(log, script, k, run, after) &&
    InOrder(log, run, after, script, k, told)
  }

  lemma ReportedNext(steps: seq<Step>, k: nat, run: string)
    requires k < |steps|
    ensures Reported(steps, k + 1, run) <==> Reported(steps, k, run) || ReportsEnd(steps[k], run)
  {
  }

  method Follow(log: seq<Entry>, run: string, after: int, script: Script, told0: seq<Told>, max0: int,
                ghost holes0: seq<Hole>)
    returns (a: Attached, ghost followed: int, ghost lost: seq<Hole>)
    requires Ordered(log) && Possible(log, script) && Caught(log, run, after, max0, holes0, Contents(told0))
    requires script.status == RunActive && Following(log, run, after, script, 0, told0, max0, holes0, Notes(told0))
    ensures ShownInOrder(log, run, after, script, a, followed)
    ensures Delivers(log, run, after, script, a, followed, lost)
    ensures Went(script, run, a, Notes(told0))
  {
    var steps := script.steps;
    var terminal, told, max := false, told0, max0;
    lost := holes0;
    for k := 0 to |steps|
      invariant Following(log, run, after, script, k, told, max, lost, Notes(told0))
      invariant terminal <==> Reported(steps, k, run)
      invariant Unsettled(steps, k, run)
    {
      var step := steps[k];
      if step.Disconnected? {
        a, followed := Attached(told, max, k, None), max;
        LeavesOpen(log, run, after, script, a, lost, Notes(told0));
        return;
      }
      SettlesIs(steps, k, run, terminal);
      if step.ContentClosed? || (step.Tick? && (terminal || (step.silent && step.due && !step.active))) {
        a, followed, lost := Finish(log, run, after, script, k, told, max, lost, Notes(told0));
        SettlesThere(script, run, a, Notes(told0));
        return;
      }
      ReportedNext(steps, k, run);
      UnsettledNext(steps, k, run);
      terminal := terminal || (step.Noted? && step.note.run == run && TerminalNote(step.note));
      told, max, lost := FollowStep(log, run, after, script, k, told, max, lost, Notes(told0));
    }
    a, followed := Attached(told, max, |steps|, None), max;
    LeavesOpen(log, run, after, script, a, lost, Notes(told0));
  }

  lemma SettlesIs(steps: seq<Step>, k: nat, run: string, terminal: bool)
    requires k < |steps| && (terminal <==> Reported(steps, k, run))
    ensures Settles(steps, k, run) <==>
            steps[k].ContentClosed? ||
            (steps[k].Tick? && (terminal || (steps[k].silent && steps[k].due && !steps[k].active)))
  {
  }

  lemma UnsettledNext(steps: seq<Step>, k: nat, run: string)
    requires k < |steps| && Unsettled(steps, k, run) && !Settles(steps, k, run) && !steps[k].Disconnected?
    ensures Unsettled(steps, k + 1, run)
  {
  }

  /** None of the first k steps settles the stream or loses the client. */
  ghost predicate Unsettled(steps: seq<Step>, k: nat, run: string)
    requires k <= |steps|
  {
    forall j :: 0 <= j < k ==> !Settles(steps, j, run) && !steps[j].Disconnected?
  }

  /** A client that goes, or is still there, has what following gave it. */
  lemma LeavesOpen(log: seq<Entry>, run: string, after: int, script: Script, a: Attached, lost: seq<Hole>,
                   notes0: seq<Note>)
    requires Possible(log, script) && a.finish.None? && a.read <= |script.steps|
    requires Following(log, run, after, script, a.read, a.told, a.max, lost, notes0)
    ensures ShownInOrder(log, run, after, script, a, a.max) && Delivers(log, run, after, script, a, a.max, lost)
    ensures Unsettled(script.steps, a.read, run) &&
            (a.read < |script.steps| ==>
               script.steps[a.read].Disconnected? && !Settles(script.steps, a.read, run)) ==>
              Went(script, run, a, notes0)
  {
  }

  lemma SettlesThere(script: Script, run: string, a: Attached, notes0: seq<Note>)
    requires a.read < |script.steps| && Unsettled(script.steps, a.read, run) && Settles(script.steps, a.read, run)
    requires a.finish == Some(SettleReason(LatchedBy(a.told), script.drain.status))
    requires Notes(a.told) == notes0 + Heard(script.steps, a.read, run) + Own(script.drain.notes, run)
    ensures Went(script, run, a, notes0)
  {
  }

  /** The select loop took steps up to the first that settles the stream or loses the client;
      a settled stream finishes with its reason, and the run's lifecycle events were passed
      on. */
  ghost predicate Went(script: Script, run: string, a: Attached, notes0: seq<Note>) {
    && a.read <= |script.steps| && Unsettled(script.steps, a.read, run)
    && (a.finish.Some? <==> a.read < |script.steps| && Settles(script.steps, a.read, run))
    && (a.finish.None? && a.read < |script.steps| ==> script.steps[a.read].Disconnected?)
    && Notes(a.told) ==
       notes0 + Heard(script.steps, a.read, run) + (if a.finish.Some? then Own(script.drain.notes, run) else [])
    && (a.finish.Some? ==> a.finish == Some(SettleReason(LatchedBy(a.told), script.drain.status)))
  }

  method FollowStep(log: seq<Entry>, run: string, after: int, script: Script, k: nat, told0: seq<Told>, max0: int,
                    ghost lost0: seq<Hole>, ghost notes0: seq<Note>)
    returns (told: seq<Told>, max: int, ghost lost: seq<Hole>)
    requires Ordered(log) && Possible(log, script) && k < |script.steps|
    requires Following(log, run, after, script, k, told0, max0, lost0, notes0)
    ensures Following(log, run, after, script, k + 1, told, max, lost, notes0)
  {
    told, max, lost := OnStep(log, run, script.steps[k], told0, max0, after, lost0);
    InOrderNext(log, run, after, script, k, told0, told);
    ExcusedNext(script, k, lost0, lost);
  }

  method Finish(log: seq<Entry>, run: string, after: int, script: Script, k: nat, told0: seq<Told>, max0: int,
                ghost lost0: seq<Hole>, ghost notes0: seq<Note>)
    returns (a: Attached, ghost followed: int, ghost lost: seq<Hole>)
    requires Ordered(log) && Possible(log, script) && script.status == RunActive && k <= |script.steps|
    requires Following(log, run, after, script, k, told0, max0, lost0, notes0)
    ensures Delivers(log, run, after, script, a, followed, lost) && followed == max0
    ensures ShownInOrder(log, run, after, script, a, followed)
    ensures a.read == k && Notes(a.told) == notes0 + Heard(script.steps, k, run) + Own(script.drain.notes, run)
    ensures a.finish == Some(SettleReason(LatchedBy(a.told), script.drain.status))
  {
    followed := max0;
    var told, max, reason;
    told, max, reason, lost := Settle(log, script.drain, run, told0, max0, after, lost0);
    a := Attached(told, max, k, Some(reason));
    ghost var frames :| told == told0 + AsContent(frames) + AsLife(Own(script.drain.notes, run));
    SettlesInOrder(log, run, after, script, k, told0, frames, told);
    DrainExcused(log, run, script, a, followed, lost0, lost);
    assert [] + QueueHoles(log, script.drain.queue, run, max0) == QueueHoles(log, script.drain.queue, run, max0);
  }

  /** Attach to a run: whatever the live channel drops, repeats or reorders, the client is
      given exactly the run's frames after `after` up to `max`, once each and in order,
      without the holes; while following there are none when everything is retained. */
  method Attach(log: seq<Entry>, run: string, after: int, script: Script)
    returns (a: Attached, ghost followed: int, ghost lost: seq<Hole>)
    requires Ordered(log) && Possible(log, script)
    ensures Delivers(log, run, after, script, a, followed, lost)
    ensures script.status != RunActive ==> a == Attached([], after, 0, Some(SettleReason("", Some(script.status))))
    ensures script.status == RunActive ==>
              Subscribed(script, run, a) && ShownInOrder(log, run, after, script, a, followed)
    ensures script.status == RunActive && !script.active ==>
              a.finish.Some? && followed == CaughtUpTo(log, script.catchUp, run, after)
  {
    if script.status != RunActive {
      EmptyFrames(log, run, after);
      followed, lost := after, [];
      return Attached([], after, 0, Some(SettleReason("", Some(script.status)))), followed, lost;
    }
    var told, max;
    told, max, lost := Begin(log, run, after, script);
    if !script.active {
      a, followed, lost := Finish(log, run, after, script, 0, told, max, lost, Replayed(script));
      return;
    }
    a, followed, lost := Follow(log, run, after, script, told, max, lost);
  }

  /** How a subscribed attach went: it settled at the first step that settles it, and the
      lifecycle events of the run were passed on in order. */
  ghost predicate Subscribed(script: Script, run: string, a: Attached) {
    && a.read <= |script.steps|
    && (a.finish.Some? ==> a.finish == Some(SettleReason(LatchedBy(a.told), script.drain.status)))
    && (script.active ==> (a.finish.Some? <==> a.read < |script.steps| && Settles(script.steps, a.read, run)))
    && (forall k :: 0 <= k < a.read ==> !Settles(script.steps, k, run) && !script.steps[k].Disconnected?)
    && Notes(a.told) ==
       Replayed(script) + Heard(script.steps, a.read, run) + if a.finish.Some? then Own(script.drain.notes, run) else []
  }

  /** Replay the lifecycle and catch up on what the broker retains. */
  method Begin(log: seq<Entry>, run: string, after: int, script: Script)
    returns (told: seq<Told>, max: int, ghost lost: seq<Hole>)
    requires Ordered(log) && Possible(log, script)
    ensures Following(log, run, after, script, 0, told, max, lost, Replayed(script)) && Notes(told) == Replayed(script)
    ensures max == CaughtUpTo(log, script.catchUp, run, after)
  {
    EmptyFrames(log, run, after);
    told := if script.replay.Some? then AsLife(script.replay.value) else [];
    ToldLife([], Replayed(script));
    assert [] + AsLife(Replayed(script)) == told;
    var taken;
    taken, max, lost := CatchUp(log, script.catchUp, run, after, after, [], []);
    ToldContent(told, taken);
    told := told + AsContent(taken);
    assert Replayed(script) + Heard(script.steps, 0, run) == Replayed(script);
  }

  lemma EmptyFrames(log: seq<Entry>, run: string, after: int)
    ensures Caught(log, run, after, after, [], [])
  {
    FilterNone(log, (e: Entry) => Wanted(e, run, after, after) && !Lost([], e.offset));
  }
}
