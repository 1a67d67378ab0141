/** What an attached client can rely on (internal/chatapi/attach.go:90-100, 198-222, 247-296,
    344-373). */
module AttachProperties {
  import opened Provider
  import opened Emitter
  import opened EmitterProperties
  import opened Attach

  /** No frame of the run lies in a hole. */
  ghost predicate Harmless(log: seq<Entry>, run: string, holes: seq<Hole>) {
    forall e :: e in log && RunScoped(e.run, run) ==> !Lost(holes, e.offset)
  }

  lemma FramesMembers(log: seq<Entry>, run: string, a: int, b: int, holes: seq<Hole>)
    ensures forall e :: e in Frames(log, run, a, b, holes) <==>
                           e in log && Wanted(e, run, a, b) && !Lost(holes, e.offset)
  {
    FilterMembers(log, (e: Entry) => Wanted(e, run, a, b) && !Lost(holes, e.offset));
  }

  /** The client saw everything exactly when no frame of the run lies in a hole. */
  lemma CompleteIff(log: seq<Entry>, run: string, after: int, max: int, holes: seq<Hole>, seen: seq<Entry>)
    requires Caught(log, run, after, max, holes, seen)
    ensures seen == Frames(log, run, after, max, []) <==> Harmless(log, run, holes)
  {
    FramesMembers(log, run, after, max, holes);
    FramesMembers(log, run, after, max, []);
    if Harmless(log, run, holes) {
      FilterSame(log, (e: Entry) => Wanted(e, run, after, max) && !Lost(holes, e.offset),
                 (e: Entry) => Wanted(e, run, after, max) && !Lost([], e.offset));
    } else {
      var e :| e in log && RunScoped(e.run, run) && Lost(holes, e.offset);
      var k :| 0 <= k < |holes| && In(holes[k], e.offset);
      assert !Lost([], e.offset);
      assert e in Frames(log, run, after, max, []) && e !in Frames(log, run, after, max, holes);
    }
  }

  /** Each frame once and in increasing order, whatever happened: dropped, repeated or
      reordered frames, failed reads, evictions and the final drain. */
  lemma OnceAscending(log: seq<Entry>, run: string, after: int, max: int, holes: seq<Hole>, seen: seq<Entry>)
    requires Ordered(log) && Caught(log, run, after, max, holes, seen)
    ensures Ordered(seen) && forall e :: e in seen ==> e in log && RunScoped(e.run, run) && after < e.offset <= max
  {
    FilterOrdered(log, (e: Entry) => Wanted(e, run, after, max) && !Lost(holes, e.offset));
    FramesMembers(log, run, after, max, holes);
  }

  /** Coming back at the last offset seen continues the stream without loss or repetition. */
  lemma Resumes(log: seq<Entry>, run: string, a: int, b: int, c: int)
    requires Ordered(log) && a <= b <= c
    ensures Frames(log, run, a, b, []) + Frames(log, run, b, c, []) == Frames(log, run, a, c, [])
  {
    FilterSplit(log, b, (e: Entry) => Wanted(e, run, a, c) && !Lost([], e.offset),
                (e: Entry) => Wanted(e, run, a, b) && !Lost([], e.offset),
                (e: Entry) => Wanted(e, run, b, c) && !Lost([], e.offset));
  }

  // ---- The final drain -------------------------------------------------------------------------

  /** The k-th queued frame is taken although a frame of the run before it was not. */
  ghost predicate Skips(log: seq<Entry>, queue: seq<nat>, run: string, max: int, k: nat)
    requires OnLog(log, queue) && k < |queue|
  {
    var m, e := QueueMax(log, queue[..k], run, max), log[queue[k]];
    IsNew(e, run, m) && exists g :: g in log && RunScoped(g.run, run) && m < g.offset < e.offset
  }

  lemma {:induction false} QueueHoleIs(log: seq<Entry>, queue: seq<nat>, run: string, max: int, offset: int)
    requires OnLog(log, queue)
    ensures Lost(QueueHoles(log, queue, run, max), offset) <==>
              exists k :: 0 <= k < |queue| && HoleAt(log, queue, run, max, k, offset)
  {
    if queue != [] {
      var n := |queue| - 1;
      var rest := queue[..n];
      var m, e := QueueMax(log, rest, run, max), log[queue[n]];
      QueueHoleIs(log, rest, run, max, offset);
      if IsNew(e, run, m) {
        LostMore(QueueHoles(log, rest, run, max), m, e.offset, offset);
      }
      forall k | 0 <= k < n
        ensures HoleAt(log, rest, run, max, k, offset) <==> HoleAt(log, queue, run, max, k, offset) {
        assert rest[..k] == queue[..k];
      }
      assert HoleAt(log, queue, run, max, n, offset) <==> IsNew(e, run, m) && m < offset < e.offset;
    }
  }

  ghost predicate HoleAt(log: seq<Entry>, queue: seq<nat>, run: string, max: int, k: nat, offset: int)
    requires OnLog(log, queue) && k < |queue|
  {
    var m, e := QueueMax(log, queue[..k], run, max), log[queue[k]];
    IsNew(e, run, m) && m < offset < e.offset
  }

  /** With everything retained, a finished attach delivered every frame of the run up to its
      last one exactly when no queued frame overtook a dropped one. */
  lemma DrainedUpTo(log: seq<Entry>, run: string, after: int, script: Script, a: Attached, followed: int,
                   lost: seq<Hole>)
    requires Possible(log, script) && Delivers(log, run, after, script, a, followed, lost) && Retained(script, after)
    requires a.finish.Some? && script.status == RunActive
    ensures Contents(a.told) == Frames(log, run, after, a.max, []) <==>
            forall k :: 0 <= k < |script.drain.queue| ==> !Skips(log, script.drain.queue, run, followed, k)
  {
    var queue := script.drain.queue;
    CompleteIff(log, run, after, a.max, lost, Contents(a.told));
    if k :| 0 <= k < |queue| && Skips(log, queue, run, followed, k) {
      var g :| g in log && RunScoped(g.run, run) && HoleAt(log, queue, run, followed, k, g.offset);
      QueueHoleIs(log, queue, run, followed, g.offset);
    } else {
      forall e | e in log && RunScoped(e.run, run) ensures !Lost(lost, e.offset) {
        LostIsSkipped(log, queue, run, followed, e);
      }
    }
  }

  /** All frames of the run after `after`. */
  function FramesAfter(log: seq<Entry>, run: string, after: int): seq<Entry> {
    Filter(log, (e: Entry) => RunScoped(e.run, run) && e.offset > after)
  }

  predicate Beyond(log: seq<Entry>, run: string, i: nat, max: int)
    requires i < |log|
  {
    RunScoped(log[i].run, run) && log[i].offset > max
  }

  /** A frame of the run beyond the queue that the drain does not look at: the channel was
      closed or the last read failed, or the frame was published after that read. */
  predicate Unread(log: seq<Entry>, drain: Drain, run: string, m: int, i: nat)
    requires i < |log|
  {
    Beyond(log, run, i, m) && (drain.closed || drain.ring.fails || i >= drain.ring.published)
  }

  ghost predicate CutOff(log: seq<Entry>, drain: Drain, run: string, followed: int)
    requires drain.ring.published <= |log| && OnLog(log, drain.queue)
  {
    exists i :: 0 <= i < |log| && Unread(log, drain, run, QueueMax(log, drain.queue, run, followed), i)
  }

  /** A frame lies beyond where the drain got exactly when it is where the drain does not
      look. */
  lemma BeyondIff(log: seq<Entry>, drain: Drain, run: string, followed: int)
    requires Ordered(log) && drain.ring.published <= |log| && OnLog(log, drain.queue)
    requires Whole(drain.ring, followed)
    ensures CutOff(log, drain, run, followed) <==>
              exists i :: 0 <= i < |log| && Beyond(log, run, i, DrainedTo(log, drain, run, followed))
  {
    var m := QueueMax(log, drain.queue, run, followed);
    var max := DrainedTo(log, drain, run, followed);
    if !drain.closed && !drain.ring.fails {
      ReadsBack(log, drain.ring, run, m);
    }
    forall i | 0 <= i < |log| ensures Unread(log, drain, run, m, i) <==> Beyond(log, run, i, max) {
    }
  }

  /** A read that works leaves nothing of the run unread among what was published. */
  lemma ReadsBack(log: seq<Entry>, ring: Ring, run: string, m: int)
    requires Ordered(log) && ring.published <= |log| && !ring.fails && Whole(ring, m)
    ensures var max := CaughtUpTo(log, ring, run, m);
            forall i :: 0 <= i < |log| ==> (Beyond(log, run, i, max) <==> Beyond(log, run, i, m) && i >= ring.published)
  {
    var front := log[..ring.published];
    var kept := (e: Entry) => e.offset > m && e.offset >= ring.floor;
    var wanted := (e: Entry) => RunScoped(e.run, run) && e.offset > m;
    FilterTwice(front, kept, wanted, wanted);
    var taken := Filter(front, wanted);
    FilterMembers(front, wanted);
    if taken != [] {
      LastKept(front, wanted, taken[|taken| - 1].offset);
    }
    assert CaughtUpTo(log, ring, run, m) == if taken == [] then m else taken[|taken| - 1].offset;
    forall i | 0 <= i < |log|
      ensures Beyond(log, run, i, CaughtUpTo(log, ring, run, m)) <==> Beyond(log, run, i, m) && i >= ring.published
    {
      if i < ring.published {
        assert front[i] == log[i] && (wanted(log[i]) ==> log[i] in taken);
      }
    }
  }

  /** Main result: with everything retained, a finished attach delivered every frame of the
      run exactly when no queued frame overtook a dropped one and no frame lies beyond the
      queue where the drain does not look. */
  lemma DrainedIff(log: seq<Entry>, run: string, after: int, script: Script, a: Attached, followed: int,
                   lost: seq<Hole>)
    requires Ordered(log) && Possible(log, script) && Delivers(log, run, after, script, a, followed, lost)
    requires Retained(script, after) && a.finish.Some? && script.status == RunActive
    ensures Contents(a.told) == FramesAfter(log, run, after) <==>
            (forall k :: 0 <= k < |script.drain.queue| ==> !Skips(log, script.drain.queue, run, followed, k)) &&
            !CutOff(log, script.drain, run, followed)
  {
    DrainedUpTo(log, run, after, script, a, followed, lost);
    BeyondIff(log, script.drain, run, followed);
    WholeIff(log, run, after, a.max, lost, Contents(a.told));
  }

  /** All of the log was seen exactly when all of it up to `max` was and nothing lies beyond. */
  lemma WholeIff(log: seq<Entry>, run: string, after: int, max: int, holes: seq<Hole>, seen: seq<Entry>)
    requires Caught(log, run, after, max, holes, seen)
    ensures seen == FramesAfter(log, run, after) <==>
            seen == Frames(log, run, after, max, []) &&
            !exists i :: 0 <= i < |log| && Beyond(log, run, i, max)
  {
    var all := (e: Entry) => RunScoped(e.run, run) && e.offset > after;
    FilterMembers(log, all);
    FramesMembers(log, run, after, max, holes);
    FramesMembers(log, run, after, max, []);
    if i :| 0 <= i < |log| && Beyond(log, run, i, max) {
      assert log[i] in FramesAfter(log, run, after) && log[i] !in seen;
    } else {
      forall e | e in log && RunScoped(e.run, run) ensures e.offset <= max {
        var i :| 0 <= i < |log| && log[i] == e;
        assert !Beyond(log, run, i, max);
      }
      FilterSame(log, all, (e: Entry) => Wanted(e, run, after, max) && !Lost([], e.offset));
    }
  }

  lemma LostIsSkipped(log: seq<Entry>, queue: seq<nat>, run: string, max: int, e: Entry)
    requires OnLog(log, queue) && e in log && RunScoped(e.run, run)
    ensures Lost(QueueHoles(log, queue, run, max), e.offset) ==>
              exists k :: 0 <= k < |queue| && Skips(log, queue, run, max, k)
  {
    QueueHoleIs(log, queue, run, max, e.offset);
    if k :| 0 <= k < |queue| && HoleAt(log, queue, run, max, k, e.offset) {
      assert Skips(log, queue, run, max, k);
    }
  }

  /** With everything retained a client still following has missed nothing. */
  lemma FollowingComplete(log: seq<Entry>, run: string, after: int, script: Script, a: Attached, followed: int,
                          lost: seq<Hole>)
    requires Possible(log, script) && Delivers(log, run, after, script, a, followed, lost) &&
             Retained(script, after) && a.finish.None?
    ensures Contents(a.told) == Frames(log, run, after, a.max, [])
  {
    CompleteIff(log, run, after, a.max, lost, Contents(a.told));
  }

  // ---- The end of the stream --------------------------------------------------------------------

  predicate Failure(e: Event) { e.Error? || e.Cancelled? }

  ghost predicate NoFailure(events: seq<Event>) {
    forall k :: 0 <= k < |events| ==> !Failure(events[k])
  }

  lemma {:induction false} LatchedIff(events: seq<Event>)
    ensures EncodeAll(events).flags.finishReason == "" <==> NoFailure(events)
  {
    if k :| 0 <= k < |events| && Failure(events[k]) {
      FailureLatched(events, k);
    } else if events != [] {
      var front := events[..|events| - 1];
      LatchedIff(front);
      assert forall k :: 0 <= k < |front| ==> front[k] == events[k];
    }
  }

  /** Main result: an attached stream finishes "stop" only if it carried no error or
      cancellation and the run is not known to have failed or been cancelled. */
  lemma FinishTells(told: seq<Told>, status: Option<Status>)
    ensures SettleReason(LatchedBy(told), status) == "stop" <==>
            NoFailure(EventsOf(told)) && status != Some(RunFailed) && status != Some(RunCancelled)
  {
    var events, latched := EventsOf(told), LatchedBy(told);
    LatchedIff(events);
    if latched != "" {
      var k :| 0 <= k < |events| && Failure(events[k]);
      FailureLatched(events, k);
      assert latched[0] != "stop"[0];
    }
    assert "error"[0] != "stop"[0] && "other"[0] != "stop"[0];
  }

  /** The whole stream of a finished attach is well bracketed, wherever writing stopped; at
      its end text and reasoning are closed, and the calls exactly when each streamed one was
      finished. */
  lemma AttachedBrackets(told: seq<Told>, status: Option<Status>, written: seq<Wire>)
    requires var e := EncodeAll(EventsOf(told));
             written <= e.frames + Closing(e.flags, SettleReason(LatchedBy(told), status))
    ensures ReadAll(IDLE, written).ok
    ensures var e := EncodeAll(EventsOf(told));
            var whole := ReadAll(IDLE, e.frames + Closing(e.flags, SettleReason(LatchedBy(told), status)));
            whole.ok && !whole.reasoning && !whole.text &&
            (whole.started == whole.ended <==> CallsFinished(EventsOf(told)))
  {
    ClientSeesBrackets(EventsOf(told), SettleReason(LatchedBy(told), status), written);
  }

  // ---- A lost frame ------------------------------------------------------------------------------

  const THREE := [
    Entry(1, "r", Some(Event.Text("a"))), Entry(2, "r", Some(Event.Text("b"))), Entry(3, "r", Some(Event.Text("c")))]

  /** Frame 1 is caught up, frame 2 was dropped for this client, frame 3 is queued, and the
      run settles before anything is followed; the broker retains all three. */
  const OVERTAKEN := Script(RunActive, None, Ring(1, 0, false), false, [],
                            Drain([2], false, Ring(3, 0, false), [], None))

  lemma OvertakenCatchUp()
    ensures CaughtUpTo(THREE, OVERTAKEN.catchUp, "r", 0) == 1
  {
    var log := THREE;
    var kept := (e: Entry) => e.offset > 0 && e.offset >= 0;
    var wanted := (e: Entry) => RunScoped(e.run, "r") && e.offset > 0;
    assert log[..1] == [log[0]] && [log[0]][..0] == [];
    assert Filter([log[0]], kept) == [log[0]] && Filter([log[0]], wanted) == [log[0]];
  }

  lemma OvertakenQueue()
    ensures OnLog(THREE, [2]) && Skips(THREE, [2], "r", 1, 0)
  {
    var log, queue := THREE, [2];
    assert queue[..0] == [];
    assert log[1] in log && IsNew(log[2], "r", 1);
  }

  /** What the client is told comes from a frame or from the lifecycle. */
  lemma {:induction false} EventsFrom(told: seq<Told>, e: Event)
    ensures e in EventsOf(told) ==>
              (exists x :: x in Contents(told) && x.event == Some(e)) ||
              (exists n :: n in Notes(told) && n.event == Some(e))
  {
    if told != [] {
      EventsFrom(told[..|told| - 1], e);
    }
  }

  /** An attach on which the drain loses a frame the broker still holds: the client ends
      with frames 1 and 3. */
  method DrainOvertakes() returns (a: Attached)
    ensures Retained(OVERTAKEN, 0) && a.finish.Some? && 1 <= a.max
    ensures Contents(a.told) != Frames(THREE, "r", 0, a.max, []) && THREE[1] !in Contents(a.told)
    ensures Event.Text("b") !in EventsOf(a.told)
  {
    assert Ordered(THREE) && Possible(THREE, OVERTAKEN);
    ghost var followed, lost;
    a, followed, lost := Attach.Attach(THREE, "r", 0, OVERTAKEN);
    QuietNotes(a);
    OvertakenCatchUp();
    DrainLoses(a, followed, lost);
  }

  lemma DrainLoses(a: Attached, followed: int, lost: seq<Hole>)
    requires Delivers(THREE, "r", 0, OVERTAKEN, a, followed, lost) && Retained(OVERTAKEN, 0) && a.finish.Some?
    requires followed == 1 && Notes(a.told) == []
    ensures 1 <= a.max && Contents(a.told) != Frames(THREE, "r", 0, a.max, []) && THREE[1] !in Contents(a.told)
    ensures Event.Text("b") !in EventsOf(a.told)
  {
    OvertakenQueue();
    DrainedUpTo(THREE, "r", 0, OVERTAKEN, a, followed, lost);
    var queue := [2];
    assert queue[..0] == [];
    assert HoleAt(THREE, queue, "r", 1, 0, 2);
    QueueHoleIs(THREE, queue, "r", 1, 2);
    FramesMembers(THREE, "r", 0, a.max, lost);
    EventsFrom(a.told, Event.Text("b"));
    assert forall x :: x in Contents(a.told) ==> x in THREE;
  }

  lemma QuietNotes(a: Attached)
    requires Subscribed(OVERTAKEN, "r", a)
    ensures Notes(a.told) == []
  {
  }

  // ---- Live frames ---------------------------------------------------------------------------------

  /** Step j delivered a frame of the run. */
  ghost predicate FrameAt(log: seq<Entry>, script: Script, run: string, j: nat)
    requires Possible(log, script)
  {
    j < |script.steps| && script.steps[j].Delivered? && RunScoped(log[script.steps[j].index].run, run)
  }

  /** Following keeps up: the client stands where it had caught up to, or at the newest frame of
      the run that the channel delivered, whichever is later. */
  lemma {:induction false} FollowingKeepsUp(log: seq<Entry>, script: Script, n: nat, run: string, after: int)
    requires Possible(log, script) && n <= |script.steps|
    ensures var m, start := FollowedTo(log, script, n, run, after), CaughtUpTo(log, script.catchUp, run, after);
            && m >= start
            && (forall j: nat :: j < n && FrameAt(log, script, run, j) ==> log[script.steps[j].index].offset <= m)
            && (m == start ||
                exists j: nat :: j < n && FrameAt(log, script, run, j) && m == log[script.steps[j].index].offset)
  {
    if n > 0 {
      FollowingKeepsUp(log, script, n - 1, run, after);
      assert FrameAt(log, script, run, n - 1) || !FrameAt(log, script, run, n - 1);
    }
  }

  /** Catching up goes to the last frame of the run the ring still holds. */
  lemma CatchesUpTo(log: seq<Entry>, ring: Ring, run: string, max: int, e: Entry)
    requires ring.published <= |log| && Ordered(log) && !ring.fails
    requires e in log[..ring.published] && RunScoped(e.run, run) && e.offset >= ring.floor
    ensures e.offset <= CaughtUpTo(log, ring, run, max) || e.offset <= max
    ensures CaughtUpTo(log, ring, run, max) >= max
  {
    var read := ReadAfter(log, ring, max).value;
    var taken := Filter(read, (x: Entry) => RunScoped(x.run, run) && x.offset > max);
    ReadHas(log, ring, max, e);
    FilterMembers(read, (x: Entry) => RunScoped(x.run, run) && x.offset > max);
    FilterOrdered(read, (x: Entry) => RunScoped(x.run, run) && x.offset > max);
    LastIsNewest(taken, e);
  }

  lemma ReadHas(log: seq<Entry>, ring: Ring, max: int, e: Entry)
    requires ring.published <= |log| && Ordered(log) && !ring.fails
    ensures Ordered(ReadAfter(log, ring, max).value)
    ensures e in log[..ring.published] && e.offset > max && e.offset >= ring.floor ==>
              e in ReadAfter(log, ring, max).value
  {
    FilterMembers(log[..ring.published], (x: Entry) => x.offset > max && x.offset >= ring.floor);
    FilterOrdered(log[..ring.published], (x: Entry) => x.offset > max && x.offset >= ring.floor);
  }

  lemma LastIsNewest(entries: seq<Entry>, e: Entry)
    requires Ordered(entries)
    ensures e in entries ==> e.offset <= entries[|entries| - 1].offset
    ensures entries != [] ==> entries[|entries| - 1] in entries
  {
  }

  // ---- Losses --------------------------------------------------------------------------------------

  /** The ring could not be read, or no longer held the frame. */
  predicate NotHad(ring: Ring, e: Entry) { ring.fails || e.offset < ring.floor }

  /** Main result: a frame of the run that a subscribed client was passed by without, was not
      to be had when the ring was read: at the start, for the gap before a live frame, or in the
      final drain. The one exception is a frame overtaken in the queue that is drained. */
  lemma LossesHaveCause(log: seq<Entry>, run: string, after: int, script: Script, a: Attached, followed: int,
                        lost: seq<Hole>, e: Entry)
    requires Ordered(log) && Possible(log, script) && Delivers(log, run, after, script, a, followed, lost)
    requires script.status == RunActive && e in log && Wanted(e, run, after, a.max) && e !in Contents(a.told)
    ensures || NotHad(script.catchUp, e)
            || (exists i :: 0 <= i < a.read <= |script.steps| && script.steps[i].Delivered? &&
                            NotHad(script.steps[i].ring, e))
            || (a.finish.Some? &&
                (NotHad(script.drain.ring, e) || Lost(QueueHoles(log, script.drain.queue, run, followed), e.offset)))
  {
    FramesMembers(log, run, after, a.max, lost);
    var j :| 0 <= j < |lost| && In(lost[j], e.offset);
    var queued := QueueHoles(log, script.drain.queue, run, followed);
    if Excused(script, a.read, lost[j]) {
      if !Excuses(script.catchUp, lost[j]) {
        var i :| 0 <= i < a.read && script.steps[i].Delivered? && Excuses(script.steps[i].ring, lost[j]);
        assert NotHad(script.steps[i].ring, e);
      }
    } else if lost[j] in queued {
      var i :| 0 <= i < |queued| && queued[i] == lost[j];
      assert In(queued[i], e.offset);
    }
  }
}
