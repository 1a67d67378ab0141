/** Passes of any number of instances, interleaved (internal/dreaming/runner.go:131-195, 213-290,
    internal/dreaming/lock.go:44-82, internal/dreaming/worker.go:240-288). */
module DreamProtocol {
  import opened Provider
  import opened DreamWorker
  import opened DreamLock

  // ---- State ---------------------------------------------------------------------------------

  /** A session as the pass listed it, with the watermark to resume from. */
  datatype Pending = Pending(id: string, after: int)

  /** Where one trigger or scheduled tick stands. */
  datatype Phase =
    | Claiming
    | Aborting
    | Scanning
    | Passing(budget: nat, todo: seq<Pending>, reading: Option<seq<int>>, pass: Pass)
    | Releasing(failed: bool)
    | Recording(failed: bool)
    | Over

  datatype Thread = Thread(instance: nat, owner: string, phase: Phase)

  /** One instance: its runner and the connection its lock object holds. */
  datatype Local = Local(claim: Claim, conn: Option<Conn>)

  /** The instances, their threads, the advisory lock, and the store: messages by session in
      id order, watermarks, and the batches that moved them. */
  datatype World = World(
    locals: map<nat, Local>,
    threads: map<nat, Thread>,
    holder: Option<Held>,
    messages: map<string, seq<int>>,
    watermarks: map<string, int>,
    batches: seq<Mark>)

  const START := World(map[], map[], None, map[], map[], [])

  function LocalOf(w: World, i: nat): Local {
    if i in w.locals then w.locals[i] else Local(UNCLAIMED, None)
  }

  function MessagesOf(w: World, s: string): seq<int> {
    if s in w.messages then w.messages[s] else []
  }

  function WatermarkOf(w: World, s: string): int {
    if s in w.watermarks then w.watermarks[s] else 0
  }

  /** The messages with an id above `mark` (MessagesAfter). */
  function Tail(ids: seq<int>, mark: int): seq<int> {
    if ids == [] then [] else
    var rest := Tail(ids[..|ids| - 1], mark);
    if ids[|ids| - 1] > mark then rest + [ids[|ids| - 1]] else rest
  }

  /** The messages up to and including `mark`. */
  function UpTo(ids: seq<int>, mark: int): seq<int> {
    if ids == [] then [] else
    var rest := UpTo(ids[..|ids| - 1], mark);
    if ids[|ids| - 1] <= mark then rest + [ids[|ids| - 1]] else rest
  }

  /** Listing the sessions attaches each one's watermark. */
  function Listed(w: World, sessions: seq<string>): (todo: seq<Pending>)
    ensures |todo| == |sessions|
  {
    seq(|sessions|, k requires 0 <= k < |sessions| => Pending(sessions[k], WatermarkOf(w, sessions[k])))
  }

  // ---- Steps -----------------------------------------------------------------------------------

  /** Each step is atomic: a critical section of a runner's mutex, a database statement, or a
      piece of a pass that touches no shared state. */
  datatype Step =
    | Start(t: nat, instance: nat, owner: string)
    | TryLock(t: nat, candidate: Option<nat>, query: Query)
    | Abort(t: nat)
    | Scan(t: nat, sessions: seq<string>, budget: nat)
    | ReadTail(t: nat)
    | Work(t: nat, stages: Stages, markFails: bool)
    | Stop(t: nat, failed: bool)
    | Release(t: nat, stuck: bool)
    | Record(t: nat)
    | Post(session: string, id: int)

  ghost predicate Enabled(w: World, s: Step) {
    match s
    case Start(t, _, _) => t !in w.threads
    case TryLock(t, _, _) => t in w.threads && w.threads[t].phase.Claiming?
    case Abort(t) => t in w.threads && w.threads[t].phase.Aborting?
    case Scan(t, sessions, _) => t in w.threads && w.threads[t].phase.Scanning? && Different(sessions)
    case ReadTail(t) =>
      t in w.threads && w.threads[t].phase.Passing? && w.threads[t].phase.todo != [] &&
      w.threads[t].phase.reading.None? &&
      Spent(w.threads[t].phase.pass.calls) < w.threads[t].phase.budget
    case Work(t, _, _) => t in w.threads && w.threads[t].phase.Passing? && w.threads[t].phase.todo != [] &&
                          w.threads[t].phase.reading.Some?
    case Stop(t, _) => t in w.threads && (w.threads[t].phase.Scanning? || w.threads[t].phase.Passing?)
    case Release(t, _) => t in w.threads && w.threads[t].phase.Releasing?
    case Record(t) => t in w.threads && w.threads[t].phase.Recording?
    case Post(session, id) => id > 0 && forall k :: k in MessagesOf(w, session) ==> k < id
  }

  ghost predicate Different(sessions: seq<string>) {
    forall a, b :: 0 <= a < b < |sessions| ==> sessions[a] != sessions[b]
  }

  function Moved(w: World, t: nat, phase: Phase): World
    requires t in w.threads
  {
    w.(threads := w.threads[t := w.threads[t].(phase := phase)])
  }

  function Started(w: World, t: nat, instance: nat, owner: string): World {
    var l := LocalOf(w, instance);
    w.(locals := w.locals[instance := l.(claim := Begun(l.claim, owner))],
       threads := w.threads[t := Thread(instance, owner, if l.claim.running then Over else Claiming)])
  }

  function Locked(w: World, t: nat, candidate: Option<nat>, query: Query): World
    requires t in w.threads
  {
    var i := w.threads[t].instance;
    var l := LocalOf(w, i);
    var a := Acquire(w.holder, l.conn, if candidate.Some? then Some(Conn(i, candidate.value)) else None, query);
    Moved(w, t, if a.got then Scanning else Aborting).(locals := w.locals[i := l.(conn := a.conn)], holder := a.holder)
  }

  function Worked(w: World, t: nat, stages: Stages, markFails: bool): World
    requires t in w.threads && w.threads[t].phase.Passing? && w.threads[t].phase.todo != [] &&
             w.threads[t].phase.reading.Some?
  {
    var ph := w.threads[t].phase;
    var s := ph.todo[0];
    var pass := VisitNext(ph.pass, Visit(s.id, s.after, ph.reading, stages, markFails), ph.budget);
    var w' := Moved(w, t, if pass.stopped then Releasing(pass.failed)
                          else ph.(todo := ph.todo[1..], reading := None, pass := pass));
    if |pass.marks| <= |ph.pass.marks| then w'
    else w'.(watermarks := w.watermarks[s.id := ph.reading.value[|ph.reading.value| - 1]],
             batches := w.batches + [pass.marks[|ph.pass.marks|]])
  }

  function Applied(w: World, s: Step): World
    requires Enabled(w, s)
  {
    match s
    case Start(t, instance, owner) => Started(w, t, instance, owner)
    case TryLock(t, candidate, query) => Locked(w, t, candidate, query)
    case Abort(t) =>
      var i := w.threads[t].instance;
      var l := LocalOf(w, i);
      Moved(w, t, Over).(locals := w.locals[i := l.(claim := Aborted(l.claim))])
    case Scan(t, sessions, budget) => Moved(w, t, Passing(budget, Listed(w, sessions), None, BEGIN))
    case ReadTail(t) =>
      var ph := w.threads[t].phase;
      Moved(w, t, ph.(reading := Some(Tail(MessagesOf(w, ph.todo[0].id), ph.todo[0].after))))
    case Work(t, stages, markFails) => Worked(w, t, stages, markFails)
    case Stop(t, failed) => Moved(w, t, Releasing(failed))
    case Release(t, stuck) =>
      var i := w.threads[t].instance;
      var l := LocalOf(w, i);
      var w' := Moved(w, t, Recording(w.threads[t].phase.failed));
      w'.(locals := w.locals[i := l.(conn := None)], holder := Unlocked(w.holder, l.conn, stuck))
    case Record(t) =>
      var i := w.threads[t].instance;
      var l := LocalOf(w, i);
      var record := DreamLock.Record(w.threads[t].phase.failed);
      Moved(w, t, Over).(locals := w.locals[i := l.(claim := Finished(l.claim, w.threads[t].owner, record))])
    case Post(session, id) => w.(messages := w.messages[session := MessagesOf(w, session) + [id]])
  }

  /** The worlds one interleaving passes through. */
  ghost predicate History(worlds: seq<World>, steps: seq<Step>) {
    |worlds| == |steps| + 1 && worlds[0] == START &&
    forall k :: 0 <= k < |steps| ==> Leads(worlds[k], steps[k], worlds[k + 1])
  }

  ghost predicate Leads(w0: World, s: Step, w: World) {
    Enabled(w0, s) && w == Applied(w0, s)
  }

  // ---- Mutual exclusion ----------------------------------------------------------------------

  predicate Holding(t: Thread) { !t.phase.Over? }

  /** The thread is inside its pass: between taking the cross-instance lock and giving it up. */
  predicate InPass(t: Thread) { t.phase.Scanning? || t.phase.Passing? || t.phase.Releasing? }

  predicate SameClaim(a: Thread, b: Thread) {
    Holding(a) && Holding(b) && a.instance == b.instance
  }

  /** At most one thread per instance has claimed its runner, and the runner knows. */
  ghost predicate Claimed(w: World) {
    && (forall t :: t in w.threads && Holding(w.threads[t]) ==> LocalOf(w, w.threads[t].instance).claim.running)
    && (forall t, u :: t in w.threads && u in w.threads && SameClaim(w.threads[t], w.threads[u]) ==> t == u)
  }

  /** A thread in its pass holds the advisory lock through its instance's connection; any
      other instance has none. */
  ghost predicate LockKept(w: World) {
    && (forall t :: t in w.threads && InPass(w.threads[t]) ==> Owns(w, w.threads[t].instance))
    && (forall t :: t in w.threads && Holding(w.threads[t]) && !InPass(w.threads[t]) ==>
        LocalOf(w, w.threads[t].instance).conn.None?)
    && (forall i: nat :: Idle(w, i))
  }

  /** An unclaimed runner's lock object holds no connection. */
  predicate Idle(w: World, i: nat) {
    !LocalOf(w, i).claim.running ==> LocalOf(w, i).conn.None?
  }

  predicate Owns(w: World, i: nat) {
    var c := LocalOf(w, i).conn;
    c.Some? && w.holder.Some? && w.holder.value.conn == c.value && c.value.instance == i
  }

  ghost predicate Exclusive(w: World) { Claimed(w) && LockKept(w) }

  lemma ExclusionStep(w: World, s: Step)
    requires Exclusive(w) && Enabled(w, s)
    ensures Exclusive(Applied(w, s))
  {
    match s
    case Start(t, instance, owner) => StartStep(w, t, instance, owner);
    case TryLock(t, candidate, query) => LockedStep(w, t, candidate, query);
    case Abort(t) => AbortStep(w, t);
    case Record(t) => RecordStep(w, t);
    case Release(t, stuck) => ReleaseStep(w, t, stuck);
    case Scan(t, _, _) => InsideStep(w, Applied(w, s), t);
    case ReadTail(t) => InsideStep(w, Applied(w, s), t);
    case Work(t, _, _) => InsideStep(w, Applied(w, s), t);
    case Stop(t, _) => InsideStep(w, Applied(w, s), t);
    case Post(_, _) => StillIdle(w, Applied(w, s));
  }

  lemma StillIdle(w: World, w': World)
    requires Exclusive(w) && w'.locals == w.locals && w'.threads == w.threads && w'.holder == w.holder
    ensures Exclusive(w')
  {
    forall i: nat ensures Idle(w', i) {
      assert Idle(w, i);
    }
    forall t | t in w'.threads && InPass(w'.threads[t]) ensures Owns(w', w'.threads[t].instance) {
      assert Owns(w, w.threads[t].instance);
    }
  }

  /** A step inside a pass touches neither runner nor lock. */
  lemma InsideStep(w: World, w': World, t: nat)
    requires Exclusive(w) && t in w.threads && InPass(w.threads[t])
    requires w'.locals == w.locals && w'.holder == w.holder && t in w'.threads && InPass(w'.threads[t])
    requires w'.threads == w.threads[t := w.threads[t].(phase := w'.threads[t].phase)]
    ensures Exclusive(w')
  {
    forall i: nat ensures Idle(w', i) {
      assert Idle(w, i);
    }
    forall u | u in w'.threads && InPass(w'.threads[u]) ensures Owns(w', w'.threads[u].instance) {
      assert Owns(w, w.threads[u].instance);
    }
  }

  lemma StartStep(w: World, t: nat, instance: nat, owner: string)
    requires Exclusive(w) && t !in w.threads
    ensures Exclusive(Started(w, t, instance, owner))
  {
    var w' := Started(w, t, instance, owner);
    forall i: nat ensures Idle(w', i) {
      assert Idle(w, i) && Idle(w, instance);
    }
    forall u | u in w'.threads && InPass(w'.threads[u]) ensures Owns(w', w'.threads[u].instance) {
      assert Owns(w, w.threads[u].instance);
    }
    assert Idle(w, instance);
  }

  lemma LockedStep(w: World, t: nat, candidate: Option<nat>, query: Query)
    requires Exclusive(w) && t in w.threads && w.threads[t].phase.Claiming?
    ensures Exclusive(Locked(w, t, candidate, query))
  {
    var w' := Locked(w, t, candidate, query);
    var i := w.threads[t].instance;
    assert LocalOf(w, i).conn.None?;
    forall j: nat ensures Idle(w', j) {
      assert Idle(w, j);
    }
    forall u | u in w'.threads && InPass(w'.threads[u]) ensures Owns(w', w'.threads[u].instance) {
      if u != t {
        assert Owns(w, w.threads[u].instance);
      }
    }
  }

  lemma AbortStep(w: World, t: nat)
    requires Exclusive(w) && t in w.threads && w.threads[t].phase.Aborting?
    ensures Exclusive(Applied(w, Abort(t)))
  {
    var w' := Applied(w, Abort(t));
    LeftRunner(w, w', t);
  }

  lemma RecordStep(w: World, t: nat)
    requires Exclusive(w) && t in w.threads && w.threads[t].phase.Recording?
    ensures Exclusive(Applied(w, Step.Record(t)))
  {
    var w' := Applied(w, Step.Record(t));
    LeftRunner(w, w', t);
  }

  /** Leaving the runner, once the instance has no connection. */
  lemma LeftRunner(w: World, w': World, t: nat)
    requires Exclusive(w) && t in w.threads && Holding(w.threads[t]) && !InPass(w.threads[t])
    requires w'.threads == w.threads[t := w.threads[t].(phase := Over)] && w'.holder == w.holder
    requires var i := w.threads[t].instance;
             w'.locals == w.locals[i := LocalOf(w', i)] && LocalOf(w', i).conn == LocalOf(w, i).conn
    ensures Exclusive(w')
  {
    forall j: nat ensures Idle(w', j) {
      assert Idle(w, j);
    }
    forall u | u in w'.threads && InPass(w'.threads[u]) ensures Owns(w', w'.threads[u].instance) {
      assert Owns(w, w.threads[u].instance);
    }
    assert forall u :: u in w'.threads && Holding(w'.threads[u]) ==> u != t && !SameClaim(w.threads[u], w.threads[t]);
  }

  lemma ReleaseStep(w: World, t: nat, stuck: bool)
    requires Exclusive(w) && t in w.threads && w.threads[t].phase.Releasing?
    ensures Exclusive(Applied(w, Release(t, stuck)))
  {
    var w' := Applied(w, Release(t, stuck));
    forall j: nat ensures Idle(w', j) {
      assert Idle(w, j);
    }
  }

  /** Two threads in their pass are one. */
  lemma OneInPass(w: World, t: nat, u: nat)
    requires Claimed(w) && LockKept(w) && t in w.threads && u in w.threads && InPass(w.threads[t]) &&
             InPass(w.threads[u])
    ensures t == u
  {
  }

  // ---- Every message folded in once -------------------------------------------------------------

  ghost predicate Ascending(ids: seq<int>) {
    (forall a, b :: 0 <= a < b < |ids| ==> ids[a] < ids[b]) && (forall k :: 0 <= k < |ids| ==> ids[k] > 0)
  }

  lemma {:induction false} TailAbove(ids: seq<int>, mark: int)
    ensures forall k :: 0 <= k < |Tail(ids, mark)| ==> Tail(ids, mark)[k] > mark
  {
    if ids != [] {
      TailAbove(ids[..|ids| - 1], mark);
    }
  }

  lemma {:induction false} Split(ids: seq<int>, mark: int)
    requires Ascending(ids)
    ensures UpTo(ids, mark) + Tail(ids, mark) == ids
  {
    if ids != [] {
      var front, last := ids[..|ids| - 1], ids[|ids| - 1];
      assert ids == front + [last];
      if last <= mark {
        NoTail(front, mark);
      } else {
        Split(front, mark);
      }
    }
  }

  lemma {:induction false} NoTail(ids: seq<int>, mark: int)
    requires forall k :: 0 <= k < |ids| ==> ids[k] <= mark
    ensures Tail(ids, mark) == [] && UpTo(ids, mark) == ids
  {
    if ids != [] {
      NoTail(ids[..|ids| - 1], mark);
      assert ids == ids[..|ids| - 1] + [ids[|ids| - 1]];
    }
  }

  lemma {:induction false} CutAt(ids: seq<int>, n: nat)
    requires Ascending(ids) && 0 < n <= |ids|
    ensures UpTo(ids, ids[n - 1]) == ids[..n]
  {
    if n == |ids| {
      NoTail(ids, ids[n - 1]);
      assert ids[..n] == ids;
    } else {
      var front := ids[..|ids| - 1];
      CutAt(front, n);
      assert front[..n] == ids[..n];
    }
  }

  /** A batch read from the tail is what lies between the old watermark and its last id. */
  lemma BatchCovers(ids: seq<int>, mark: int, batch: seq<int>)
    requires Ascending(ids) && batch != [] && batch <= Tail(ids, mark)
    ensures UpTo(ids, batch[|batch| - 1]) == UpTo(ids, mark) + batch && batch[|batch| - 1] > mark &&
            batch[|batch| - 1] in ids
  {
    Split(ids, mark);
    TailAbove(ids, mark);
    var n := |UpTo(ids, mark)| + |batch|;
    assert ids[n - 1] == batch[|batch| - 1];
    assert ids[..n] == UpTo(ids, mark) + batch;
    CutAt(ids, n);
  }

  /** The messages of a session that were folded in, in the order of the batches. */
  function FoldedOf(batches: seq<Mark>, s: string): seq<int> {
    if batches == [] then [] else
    var rest, b := FoldedOf(batches[..|batches| - 1], s), batches[|batches| - 1];
    if b.id == s then rest + b.episodes else rest
  }

  /** Where the last batch of a session ended. */
  function EndOf(batches: seq<Mark>, s: string): int {
    if batches == [] then 0 else
    var b := batches[|batches| - 1];
    if b.id == s && b.episodes != [] then b.episodes[|b.episodes| - 1] else EndOf(batches[..|batches| - 1], s)
  }

  /** Each batch of a session starts where the one before ended, and went through every
      stage. */
  ghost predicate Consecutive(batches: seq<Mark>) {
    forall k :: 0 <= k < |batches| ==> Continues(batches, k)
  }

  ghost predicate Continues(batches: seq<Mark>, k: nat)
    requires k < |batches|
  {
    var b := batches[k];
    b.after == EndOf(batches[..k], b.id) && b.episodes != [] && Folded(b.calls) &&
    forall j :: 0 <= j < |b.episodes| ==> b.after < b.episodes[j]
  }

  /** The books of one session. */
  ghost predicate Booked(w: World, s: string) {
    && Ascending(MessagesOf(w, s))
    && (WatermarkOf(w, s) == 0 || WatermarkOf(w, s) in MessagesOf(w, s))
    && WatermarkOf(w, s) == EndOf(w.batches, s)
    && FoldedOf(w.batches, s) == UpTo(MessagesOf(w, s), WatermarkOf(w, s))
  }

  /** What a pass still has to do agrees with the store. */
  ghost predicate Current(w: World, ph: Phase) {
    ph.Passing? ==>
      (forall a, b :: 0 <= a < b < |ph.todo| ==> ph.todo[a].id != ph.todo[b].id) &&
      (forall k :: 0 <= k < |ph.todo| ==> ph.todo[k].after == WatermarkOf(w, ph.todo[k].id)) &&
      (ph.reading.Some? ==> ph.todo != [] && ph.reading.value <= Tail(MessagesOf(w, ph.todo[0].id), ph.todo[0].after))
  }

  ghost predicate Consistent(w: World) {
    && Exclusive(w) && Consecutive(w.batches)
    && (forall s :: Booked(w, s))
    && (forall t :: t in w.threads ==> Current(w, w.threads[t].phase))
  }

  lemma ConsistentStep(w: World, s: Step)
    requires Consistent(w) && Enabled(w, s)
    ensures Consistent(Applied(w, s))
  {
    ExclusionStep(w, s);
    if s.Post? {
      PostStep(w, s.session, s.id);
    } else if s.Work? {
      WorkStep(w, s.t, s.stages, s.markFails);
    } else {
      QuietStep(w, s);
    }
  }

  /** Steps that change neither messages nor watermarks. */
  lemma QuietStep(w: World, s: Step)
    requires Consistent(w) && Enabled(w, s) && !s.Post? && !s.Work?
    ensures var w' := Applied(w, s);
            Consecutive(w'.batches) && (forall x :: Booked(w', x)) &&
            (forall t :: t in w'.threads ==> Current(w', w'.threads[t].phase))
  {
    var w' := Applied(w, s);
    SameStore(w, w');
    forall t | t in w'.threads ensures Current(w', w'.threads[t].phase) {
      if t in w.threads {
        assert Current(w, w.threads[t].phase);
      }
    }
  }

  lemma SameStore(w: World, w': World)
    requires (forall x :: Booked(w, x)) && w'.messages == w.messages && w'.watermarks == w.watermarks &&
             w'.batches == w.batches
    ensures forall x :: Booked(w', x)
    ensures forall ph :: Current(w, ph) ==> Current(w', ph)
  {
    forall x ensures Booked(w', x) {
      assert Booked(w, x);
    }
  }

  lemma PostedTail(ids: seq<int>, id: int, mark: int)
    requires mark < id
    ensures Tail(ids, mark) <= Tail(ids + [id], mark) && UpTo(ids + [id], mark) == UpTo(ids, mark)
  {
    assert (ids + [id])[..|ids|] == ids;
  }

  lemma PostBooked(w: World, session: string, id: int, x: string)
    requires Booked(w, x) && Enabled(w, Post(session, id))
    ensures Booked(w.(messages := w.messages[session := MessagesOf(w, session) + [id]]), x)
    ensures x == session ==> WatermarkOf(w, x) < id
  {
    var w' := w.(messages := w.messages[session := MessagesOf(w, session) + [id]]);
    if x == session {
      var ids := MessagesOf(w, session);
      assert MessagesOf(w', x) == ids + [id];
      PostedBooked(w, w', x, id);
    } else {
      assert MessagesOf(w', x) == MessagesOf(w, x);
    }
  }

  lemma PostedBooked(w: World, w': World, x: string, id: int)
    requires Booked(w, x) && id > 0 && forall k :: k in MessagesOf(w, x) ==> k < id
    requires MessagesOf(w', x) == MessagesOf(w, x) + [id]
    requires w'.watermarks == w.watermarks && w'.batches == w.batches
    ensures Booked(w', x) && WatermarkOf(w, x) < id
  {
    Posted(MessagesOf(w, x), id);
    PostedTail(MessagesOf(w, x), id, WatermarkOf(w, x));
  }

  lemma Posted(ids: seq<int>, id: int)
    requires Ascending(ids) && id > 0 && forall k :: k in ids ==> k < id
    ensures Ascending(ids + [id])
  {
    assert forall k :: 0 <= k < |ids| ==> ids[k] in ids;
  }

  lemma PostCurrent(w: World, session: string, id: int, ph: Phase)
    requires Current(w, ph) && WatermarkOf(w, session) < id
    ensures Current(w.(messages := w.messages[session := MessagesOf(w, session) + [id]]), ph)
  {
    if ph.Passing? && ph.reading.Some? && ph.todo[0].id == session {
      PostedTail(MessagesOf(w, session), id, ph.todo[0].after);
    }
  }

  lemma PostStep(w: World, session: string, id: int)
    requires Consistent(w) && Enabled(w, Post(session, id))
    ensures var w' := Applied(w, Post(session, id));
            (forall x :: Booked(w', x)) && (forall t :: t in w'.threads ==> Current(w', w'.threads[t].phase))
  {
    var w' := Applied(w, Post(session, id));
    forall x ensures Booked(w', x) {
      assert Booked(w, x);
      PostBooked(w, session, id, x);
    }
    assert Booked(w, session);
    PostBooked(w, session, id, session);
    forall t | t in w'.threads ensures Current(w', w'.threads[t].phase) {
      assert Current(w, w.threads[t].phase);
      PostCurrent(w, session, id, w.threads[t].phase);
    }
  }

  lemma WorkStep(w: World, t: nat, stages: Stages, markFails: bool)
    requires Consistent(w) && Enabled(w, Work(t, stages, markFails))
    ensures var w' := Worked(w, t, stages, markFails);
            Consecutive(w'.batches) && (forall x :: Booked(w', x)) &&
            (forall u :: u in w'.threads ==> Current(w', w'.threads[u].phase))
  {
    var w' := Worked(w, t, stages, markFails);
    var ph := w.threads[t].phase;
    assert Current(w, ph);
    var s := ph.todo[0];
    var v := Visit(s.id, s.after, ph.reading, stages, markFails);
    VisitMarks(ph.pass, v, ph.budget);
    var pass := VisitNext(ph.pass, v, ph.budget);
    if |pass.marks| > |ph.pass.marks| {
      MarkStep(w, w', s, pass.marks[|ph.pass.marks|]);
    } else {
      forall x ensures Booked(w', x) {
        assert Booked(w, x);
      }
    }
    forall u | u in w'.threads ensures Current(w', w'.threads[u].phase) {
      assert Current(w, w.threads[u].phase);
      if u != t && w.threads[u].phase.Passing? {
        OneInPass(w, t, u);
      }
    }
  }

  /** Moving one watermark. */
  lemma MarkStep(w: World, w': World, s: Pending, m: Mark)
    requires Consecutive(w.batches) && (forall x :: Booked(w, x)) && s.after == WatermarkOf(w, s.id)
    requires m.id == s.id && m.after == s.after && m.episodes != [] &&
             m.episodes <= Tail(MessagesOf(w, s.id), s.after) && Folded(m.calls)
    requires w'.messages == w.messages && w'.batches == w.batches + [m]
    requires w'.watermarks == w.watermarks[s.id := m.episodes[|m.episodes| - 1]]
    ensures Consecutive(w'.batches) && forall x :: Booked(w', x)
  {
    assert Booked(w, s.id);
    var ids := MessagesOf(w, s.id);
    BatchCovers(ids, s.after, m.episodes);
    TailAbove(ids, s.after);
    assert w'.batches[..|w.batches|] == w.batches;
    forall k | 0 <= k < |w'.batches| ensures Continues(w'.batches, k) {
      if k < |w.batches| {
        assert Continues(w.batches, k) && w'.batches[..k] == w.batches[..k];
      }
    }
    forall x ensures Booked(w', x) {
      assert Booked(w, x);
    }
  }

  // ---- Whole histories ------------------------------------------------------------------------

  lemma {:induction false} AlwaysConsistent(worlds: seq<World>, steps: seq<Step>, n: nat)
    requires History(worlds, steps) && n < |worlds|
    ensures Consistent(worlds[n])
  {
    if n > 0 {
      AlwaysConsistent(worlds, steps, n - 1);
      assert Leads(worlds[n - 1], steps[n - 1], worlds[n]);
      ConsistentStep(worlds[n - 1], steps[n - 1]);
    }
  }

  /** Main result: whatever the interleaving, at most one pass is in flight over all
      instances. */
  lemma AtMostOnePass(worlds: seq<World>, steps: seq<Step>, n: nat, t: nat, u: nat)
    requires History(worlds, steps) && n < |worlds|
    requires t in worlds[n].threads && u in worlds[n].threads && InPass(worlds[n].threads[t]) &&
             InPass(worlds[n].threads[u])
    ensures t == u
  {
    AlwaysConsistent(worlds, steps, n);
    OneInPass(worlds[n], t, u);
  }

  /** Main result: the batches that moved a session's watermark are consecutive intervals,
      each taken through every stage; together they hold each of the session's messages up
      to the watermark exactly once, in order. */
  lemma FoldedOnce(worlds: seq<World>, steps: seq<Step>, n: nat, s: string)
    requires History(worlds, steps) && n < |worlds|
    ensures var w := worlds[n];
            Consecutive(w.batches) && WatermarkOf(w, s) == EndOf(w.batches, s) &&
            FoldedOf(w.batches, s) == UpTo(MessagesOf(w, s), WatermarkOf(w, s)) &&
            FoldedOf(w.batches, s) + Tail(MessagesOf(w, s), WatermarkOf(w, s)) == MessagesOf(w, s)
  {
    AlwaysConsistent(worlds, steps, n);
    assert Booked(worlds[n], s);
    Split(MessagesOf(worlds[n], s), WatermarkOf(worlds[n], s));
  }

  /** A watermark never falls. */
  lemma WatermarkRises(w: World, s: Step, session: string)
    requires Consistent(w) && Enabled(w, s)
    ensures WatermarkOf(Applied(w, s), session) >= WatermarkOf(w, session)
  {
    if s.Work? {
      var ph := w.threads[s.t].phase;
      assert Current(w, ph) && Booked(w, ph.todo[0].id);
      VisitMarks(ph.pass, Visit(ph.todo[0].id, ph.todo[0].after, ph.reading, s.stages, s.markFails), ph.budget);
      if ph.reading.value != [] {
        BatchCovers(MessagesOf(w, ph.todo[0].id), ph.todo[0].after, ph.reading.value);
      }
    }
  }

  // ---- A lock left behind ---------------------------------------------------------------------

  ghost predicate PassInFlight(w: World) {
    exists t :: t in w.threads && InPass(w.threads[t])
  }

  /** The session holds the lock once more than the pass in flight, if any, accounts for: an
      unlock failed, or nobody heard that the lock was granted. */
  ghost predicate LeftWith(w: World, c: Conn) {
    w.holder.Some? && w.holder.value.conn == c && (PassInFlight(w) ==> w.holder.value.again > 0)
  }

  /** Unless a session has it left, the lock is free whenever no pass is in flight. */
  lemma LeftOrFree(w: World)
    requires !PassInFlight(w)
    ensures w.holder == None || LeftWith(w, w.holder.value.conn)
  {
  }

  /** How a lock is left behind: by an unlock that fails on a live session, or by a grant that
      nobody heard of. */
  lemma LeftBehind(w: World, t: nat)
    requires Exclusive(w) && t in w.threads && w.threads[t].phase.Releasing?
    ensures w.holder.Some? && LeftWith(Applied(w, Release(t, true)), w.holder.value.conn)
  {
    assert Owns(w, w.threads[t].instance);
    ReleasedAll(w, t, true);
  }

  lemma UnheardGrant(w: World, t: nat, candidate: nat)
    requires Exclusive(w) && t in w.threads && w.threads[t].phase.Claiming?
    requires w.holder == None
    ensures LeftWith(Locked(w, t, Some(candidate), Unheard), Conn(w.threads[t].instance, candidate))
  {
    var w' := Locked(w, t, Some(candidate), Unheard);
    assert LocalOf(w, w.threads[t].instance).conn.None?;
    forall u | u in w'.threads && InPass(w'.threads[u]) ensures Owns(w, w'.threads[u].instance) {
      assert u in w.threads && InPass(w.threads[u]);
    }
    assert !PassInFlight(w');
  }

  lemma ReleasedAll(w: World, t: nat, stuck: bool)
    requires Exclusive(w) && t in w.threads && w.threads[t].phase.Releasing?
    ensures !PassInFlight(Applied(w, Release(t, stuck)))
  {
    var w' := Applied(w, Release(t, stuck));
    forall u | u in w'.threads ensures !InPass(w'.threads[u]) {
      if u != t && InPass(w.threads[u]) {
        OneInPass(w, t, u);
      }
    }
  }

  lemma Conflict(w: World, t: nat, u: nat, c: Conn)
    requires LockKept(w) && LeftWith(w, c) && t in w.threads && u in w.threads
    requires Holding(w.threads[t]) && w.threads[t].instance == c.instance
    ensures InPass(w.threads[u]) ==> SameClaim(w.threads[t], w.threads[u])
  {
    if InPass(w.threads[u]) {
      assert Owns(w, w.threads[u].instance);
    }
  }

  /** An instance that is about to take the lock has no pass in flight on its sessions. */
  lemma NobodyElse(w: World, t: nat, c: Conn)
    requires Exclusive(w) && LeftWith(w, c) && t in w.threads && w.threads[t].phase.Claiming?
    requires w.threads[t].instance == c.instance
    ensures !PassInFlight(w)
  {
    forall u | u in w.threads ensures !InPass(w.threads[u]) {
      Conflict(w, t, u, c);
    }
  }

  lemma LeftLocked(w: World, t: nat, candidate: Option<nat>, query: Query, c: Conn)
    requires Exclusive(w) && LeftWith(w, c) && t in w.threads && w.threads[t].phase.Claiming?
    ensures LeftWith(Locked(w, t, candidate, query), c)
  {
    var w' := Locked(w, t, candidate, query);
    assert LocalOf(w, w.threads[t].instance).conn.None?;
    if InPass(w'.threads[t]) {
      NobodyElse(w, t, c);
    } else if PassInFlight(w') {
      var u :| u in w'.threads && InPass(w'.threads[u]);
      assert u in w.threads && InPass(w.threads[u]);
    }
  }

  /** No step takes a lock left behind away from its session. */
  lemma LeftStep(w: World, s: Step, c: Conn)
    requires Exclusive(w) && Enabled(w, s) && LeftWith(w, c)
    ensures LeftWith(Applied(w, s), c)
  {
    var w' := Applied(w, s);
    if s.TryLock? {
      LeftLocked(w, s.t, s.candidate, s.query, c);
    } else if s.Release? {
      assert Owns(w, w.threads[s.t].instance) && InPass(w.threads[s.t]);
      ReleasedAll(w, s.t, s.stuck);
    } else if PassInFlight(w') {
      var u :| u in w'.threads && InPass(w'.threads[u]);
      assert u in w.threads && InPass(w.threads[u]);
    }
  }

  lemma {:induction false} StillLeft(worlds: seq<World>, steps: seq<Step>, n: nat, m: nat, c: Conn)
    requires History(worlds, steps) && n <= m < |worlds| && LeftWith(worlds[n], c)
    ensures LeftWith(worlds[m], c)
  {
    if n < m {
      StillLeft(worlds, steps, n, m - 1, c);
      AlwaysConsistent(worlds, steps, m - 1);
      assert Leads(worlds[m - 1], steps[m - 1], worlds[m]);
      LeftStep(worlds[m - 1], steps[m - 1], c);
    }
  }

  /** Main result: a lock left behind is never freed again while its session lives. Passes
      that get it give back only what they took, so that ever after every pass of every
      instance runs on that one session, or not at all. */
  lemma StuckForever(worlds: seq<World>, steps: seq<Step>, n: nat, m: nat, c: Conn, t: nat)
    requires History(worlds, steps) && n <= m < |worlds| && LeftWith(worlds[n], c)
    ensures LeftWith(worlds[m], c)
    ensures t in worlds[m].threads && InPass(worlds[m].threads[t]) ==>
              LocalOf(worlds[m], worlds[m].threads[t].instance).conn == Some(c)
  {
    StillLeft(worlds, steps, n, m, c);
    AlwaysConsistent(worlds, steps, m);
    if t in worlds[m].threads && InPass(worlds[m].threads[t]) {
      assert Owns(worlds[m], worlds[m].threads[t].instance);
    }
  }

  /** Who can take a lock that is held with no pass in flight: that session alone. */
  lemma StuckLock(w: World, t: nat, candidate: nat)
    requires Exclusive(w) && t in w.threads && w.threads[t].phase.Claiming? && w.holder.Some?
    ensures var w' := Locked(w, t, Some(candidate), Answered);
            InPass(w'.threads[t]) <==> w.holder.value.conn == Conn(w.threads[t].instance, candidate)
  {
    assert LocalOf(w, w.threads[t].instance).conn.None?;
  }
}
