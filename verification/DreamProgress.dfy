/** What the steps of dreaming achieve (internal/dreaming/runner.go:213-277,
    internal/dreaming/lock.go:31-82, internal/dreaming/worker.go:191-357): the lock is granted
    when it is free, a batch is folded in when nothing stands against it, and a pass that ends
    leaves the way open for the next. */
module DreamProgress {
  import opened Provider
  import opened DreamLock
  import opened DreamWorker
  import opened DreamPasses
  import opened DreamProtocol

  /** Steps that can be taken one after the other from w, and lead to w'. */
  ghost predicate Path(w: World, steps: seq<Step>, w': World)
    decreases |steps|
  {
    if steps == [] then w' == w
    else Enabled(w, steps[0]) && Path(Applied(w, steps[0]), steps[1..], w')
  }

  lemma {:induction false} PathOn(w: World, steps: seq<Step>, w1: World, more: seq<Step>, w2: World)
    requires Path(w, steps, w1) && Path(w1, more, w2)
    ensures Path(w, steps + more, w2)
    decreases |steps|
  {
    if steps == [] {
      assert steps + more == more;
    } else {
      PathOn(Applied(w, steps[0]), steps[1..], w1, more, w2);
      assert (steps + more)[0] == steps[0] && (steps + more)[1..] == steps[1..] + more;
    }
  }

  lemma OneStep(w: World, s: Step)
    requires Enabled(w, s)
    ensures Path(w, [s], Applied(w, s))
  {
    assert [s][1..] == [];
    assert Path(Applied(w, s), [], Applied(w, s));
  }

  /** The stores are as they were. */
  ghost predicate SameBooks(w: World, w': World) {
    w'.messages == w.messages && w'.watermarks == w.watermarks && w'.batches == w.batches
  }

  /** Nothing but the given thread and its instance was touched, besides the lock. */
  ghost predicate OthersKept(w: World, w': World, t: nat, i: nat) {
    && (forall u :: u != t ==>
          (u in w'.threads <==> u in w.threads) && (u in w.threads ==> w'.threads[u] == w.threads[u]))
    && (forall j: nat :: j != i ==> LocalOf(w', j) == LocalOf(w, j))
  }

  // ---- Claiming ------------------------------------------------------------------------------

  /** A trigger claims its instance's runner exactly when no pass has it. */
  lemma StartClaims(w: World, t: nat, i: nat, owner: string)
    requires t !in w.threads
    ensures var w' := Applied(w, Start(t, i, owner));
            && SameBooks(w, w') && OthersKept(w, w', t, i) && w'.holder == w.holder && t in w'.threads
            && w'.threads[t].instance == i && w'.threads[t].owner == owner
            && (if LocalOf(w, i).claim.running then w'.threads[t].phase.Over? && LocalOf(w', i) == LocalOf(w, i)
                else
                  && w'.threads[t].phase.Claiming? && LocalOf(w', i).claim.running
                  && LocalOf(w', i).claim.owner == owner && LocalOf(w', i).claim.last == LocalOf(w, i).claim.last
                  && LocalOf(w', i).conn == LocalOf(w, i).conn)
  {
  }

  /** A session is granted the lock exactly when nobody, or that session, holds it; whoever is
      refused or fails leaves the lock alone, except for a grant it never heard of. */
  lemma LockGranted(w: World, t: nat, candidate: nat, query: Query)
    requires Exclusive(w) && t in w.threads && w.threads[t].phase.Claiming?
    ensures var i := w.threads[t].instance;
            var w', c := Applied(w, TryLock(t, Some(candidate), query)), Conn(i, candidate);
            && SameBooks(w, w') && OthersKept(w, w', t, i) && LocalOf(w', i).claim == LocalOf(w, i).claim
            && (if query.Answered? && (w.holder.None? || w.holder.value.conn == c) then
                  w'.threads[t].phase.Scanning? && LocalOf(w', i).conn == Some(c) && w'.holder.Some? &&
                  w'.holder.value.conn == c &&
                  w'.holder.value.again == (if w.holder.None? then 0 else w.holder.value.again + 1)
                else
                  w'.threads[t].phase.Aborting? && LocalOf(w', i).conn == None &&
                  (!query.Unheard? || (w.holder.Some? && w.holder.value.conn != c) ==> w'.holder == w.holder))
  {
    assert LocalOf(w, w.threads[t].instance).conn.None?;
  }

  /** A trigger that got no lock gives its runner back, with the records as they were. */
  lemma AbortFrees(w: World, t: nat)
    requires t in w.threads && w.threads[t].phase.Aborting?
    ensures var i, w' := w.threads[t].instance, Applied(w, Abort(t));
            && SameBooks(w, w') && OthersKept(w, w', t, i) && w'.holder == w.holder && w'.threads[t].phase.Over?
            && !LocalOf(w', i).claim.running && LocalOf(w', i).claim.last == LocalOf(w, i).claim.last
            && LocalOf(w', i).conn == LocalOf(w, i).conn
  {
  }

  // ---- Working -------------------------------------------------------------------------------

  /** Reading shows the pass exactly the messages that no batch holds yet. */
  lemma ReadsTheRest(w: World, t: nat)
    requires Consistent(w) && Enabled(w, ReadTail(t))
    ensures var w' := Applied(w, ReadTail(t));
            var s := w.threads[t].phase.todo[0].id;
            && w'.threads[t].phase.Passing? && w'.threads[t].phase.reading.Some?
            && FoldedOf(w.batches, s) + w'.threads[t].phase.reading.value == MessagesOf(w, s)
            && w'.threads[t].phase.todo == w.threads[t].phase.todo
            && w'.threads[t].phase.pass == w.threads[t].phase.pass
            && SameBooks(w, w')
  {
    assert Current(w, w.threads[t].phase);
    var s := w.threads[t].phase.todo[0].id;
    assert Booked(w, s);
    Split(MessagesOf(w, s), WatermarkOf(w, s));
  }

  /** A pass in the middle of its work has not been told to stop. */
  ghost predicate Going(w: World) {
    forall t :: t in w.threads && w.threads[t].phase.Passing? ==> !w.threads[t].phase.pass.stopped
  }

  lemma GoingStep(w: World, s: Step)
    requires Going(w) && Enabled(w, s)
    ensures Going(Applied(w, s))
  {
  }

  ghost function VisitOf(ph: Phase, stages: Stages, markFails: bool): Visit
    requires ph.Passing? && ph.todo != []
  {
    Visit(ph.todo[0].id, ph.todo[0].after, ph.reading, stages, markFails)
  }

  /** Main result: the batch read is folded in, and its session's watermark moves to its last
      message, exactly when the allowance covers its stages and neither a stage nor a store
      fails; otherwise no watermark moves. */
  lemma WorkFolds(w: World, t: nat, stages: Stages, markFails: bool)
    requires Going(w) && Enabled(w, Work(t, stages, markFails))
    ensures var w', ph := Applied(w, Work(t, stages, markFails)), w.threads[t].phase;
            var v := VisitOf(ph, stages, markFails);
            var left := ph.budget - Spent(ph.pass.calls);
            && w'.messages == w.messages
            && (if Folds(v, left) then
                  && w'.watermarks == w.watermarks[v.id := v.episodes.value[|v.episodes.value| - 1]]
                  && |w'.batches| == |w.batches| + 1 && w.batches <= w'.batches
                  && MarksVisit(w'.batches[|w.batches|], v)
                else SameBooks(w, w'))
  {
    var ph := w.threads[t].phase;
    NextBecomes(ph.pass, VisitOf(ph, stages, markFails), ph.budget);
  }

  /** The pass ends exactly when there was no budget left or something broke; otherwise it
      turns to the next session. */
  lemma WorkGoesOn(w: World, t: nat, stages: Stages, markFails: bool)
    requires Going(w) && Enabled(w, Work(t, stages, markFails))
    ensures var ph := w.threads[t].phase;
            var ph' := Applied(w, Work(t, stages, markFails)).threads[t].phase;
            var v, left := VisitOf(ph, stages, markFails), ph.budget - Spent(ph.pass.calls);
            if left <= 0 || Breaks(v, left) then
              ph' == Releasing(ph.pass.failed || (left > 0 && Breaks(v, left)))
            else ph'.Passing? && ph'.todo == ph.todo[1..] && ph'.reading == None && ph'.budget == ph.budget &&
                 Spent(ph'.pass.calls) == Spent(ph.pass.calls) + TakesIn(v, left)
  {
    var ph := w.threads[t].phase;
    NextBecomes(ph.pass, VisitOf(ph, stages, markFails), ph.budget);
  }

  // ---- Ending --------------------------------------------------------------------------------

  /** A pass that ends gives the lock and its runner back, whatever came of it, and leaves its
      outcome with its owner and nobody else. */
  lemma PassEnds(w: World, t: nat)
    requires Exclusive(w) && t in w.threads && w.threads[t].phase.Releasing?
    ensures var i, owner := w.threads[t].instance, w.threads[t].owner;
            var w1 := Applied(w, Release(t, false));
            && Enabled(w1, Step.Record(t)) && w.holder.Some?
            && var w2 := Applied(w1, Step.Record(t));
            && SameBooks(w, w2) && OthersKept(w, w2, t, i) && w2.threads[t].phase.Over?
            && w2.holder == (if w.holder.value.again == 0 then None
                             else Some(w.holder.value.(again := w.holder.value.again - 1)))
            && LocalOf(w2, i).conn == None && !LocalOf(w2, i).claim.running
            && owner in LocalOf(w2, i).claim.last
            && LocalOf(w2, i).claim.last[owner].failed == w.threads[t].phase.failed
            && forall other :: other != owner ==>
                 (other in LocalOf(w2, i).claim.last <==> other in LocalOf(w, i).claim.last) &&
                 (other in LocalOf(w, i).claim.last ==>
                    LocalOf(w2, i).claim.last[other] == LocalOf(w, i).claim.last[other])
  {
    assert Owns(w, w.threads[t].instance);
  }

  // ---- A pass nobody disturbs -------------------------------------------------------------------

  /** Every message of the session was folded in. */
  predicate UpToDate(w: World, s: string) {
    FoldedOf(w.batches, s) == MessagesOf(w, s)
  }

  const FREE := Stages(Reply(0, false), Reply(0, false), Reply(0, false), false)

  /** The thread is between two sessions of its pass, with budget left. */
  ghost predicate Between(w: World, t: nat) {
    && Consistent(w) && Going(w) && t in w.threads && w.threads[t].phase.Passing?
    && w.threads[t].phase.reading == None
    && Spent(w.threads[t].phase.pass.calls) < w.threads[t].phase.budget
  }

  /** What the steps of one pass do not touch before it ends. */
  ghost predicate Frame(w: World, w': World, t: nat) {
    && t in w.threads && t in w'.threads && w'.locals == w.locals && w'.holder == w.holder
    && w'.messages == w.messages && w'.threads[t].instance == w.threads[t].instance
    && w'.threads[t].owner == w.threads[t].owner
  }

  lemma DateKept(w: World, w': World, s: string)
    requires Consistent(w) && Consistent(w') && w'.messages == w.messages
    requires WatermarkOf(w', s) == WatermarkOf(w, s)
    ensures UpToDate(w', s) == UpToDate(w, s)
  {
    assert Booked(w, s) && Booked(w', s);
  }

  lemma DateReached(w: World, s: string)
    requires Consistent(w) && Tail(MessagesOf(w, s), WatermarkOf(w, s)) == []
    ensures UpToDate(w, s)
  {
    assert Booked(w, s);
    Split(MessagesOf(w, s), WatermarkOf(w, s));
  }

  /** One session: read what is new, and fold it in. */
  lemma FoldNext(w: World, t: nat) returns (w': World)
    requires Between(w, t) && w.threads[t].phase.todo != []
    ensures Path(w, [ReadTail(t), Work(t, FREE, false)], w')
    ensures Between(w', t) && Frame(w, w', t) && w'.threads[t].phase.todo == w.threads[t].phase.todo[1..]
    ensures UpToDate(w', w.threads[t].phase.todo[0].id)
    ensures forall s :: s != w.threads[t].phase.todo[0].id ==> UpToDate(w', s) == UpToDate(w, s)
  {
    var w1 := Applied(w, ReadTail(t));
    w' := Applied(w1, Work(t, FREE, false));
    OneStep(w, ReadTail(t));
    OneStep(w1, Work(t, FREE, false));
    PathOn(w, [ReadTail(t)], w1, [Work(t, FREE, false)], w');
    assert [ReadTail(t)] + [Work(t, FREE, false)] == [ReadTail(t), Work(t, FREE, false)];
    ConsistentStep(w, ReadTail(t));
    ConsistentStep(w1, Work(t, FREE, false));
    GoingStep(w, ReadTail(t));
    GoingStep(w1, Work(t, FREE, false));
    FreeWork(w, w1, w', t);
  }

  lemma FreeWork(w: World, w1: World, w': World, t: nat)
    requires Between(w, t) && w.threads[t].phase.todo != [] && w1 == Applied(w, ReadTail(t))
    requires w' == Applied(w1, Work(t, FREE, false)) && Consistent(w') && Going(w')
    ensures Between(w', t) && Frame(w, w', t) && w'.threads[t].phase.todo == w.threads[t].phase.todo[1..]
    ensures UpToDate(w', w.threads[t].phase.todo[0].id)
    ensures forall s :: s != w.threads[t].phase.todo[0].id ==> UpToDate(w', s) == UpToDate(w, s)
  {
    var s, rest := w.threads[t].phase.todo[0].id, w1.threads[t].phase.reading.value;
    FreeEffects(w1, w', t);
    assert Current(w, w.threads[t].phase);
    if rest == [] {
      DateReached(w', s);
    } else {
      LastReached(w', s, w.threads[t].phase.todo[0].after, rest);
    }
    forall x | x != s ensures UpToDate(w', x) == UpToDate(w, x) {
      DateKept(w, w', x);
    }
  }

  lemma FreeEffects(w: World, w': World, t: nat)
    requires Going(w) && Enabled(w, Work(t, FREE, false)) && w' == Applied(w, Work(t, FREE, false))
    requires Spent(w.threads[t].phase.pass.calls) < w.threads[t].phase.budget
    ensures Frame(w, w', t)
    ensures var ph, ph' := w.threads[t].phase, w'.threads[t].phase;
            && ph'.Passing? && ph'.todo == ph.todo[1..] && ph'.reading == None && ph'.budget == ph.budget
            && Spent(ph'.pass.calls) == Spent(ph.pass.calls)
            && w'.watermarks == if ph.reading.value == [] then w.watermarks
                                else w.watermarks[ph.todo[0].id := ph.reading.value[|ph.reading.value| - 1]]
  {
    WorkFolds(w, t, FREE, false);
    WorkGoesOn(w, t, FREE, false);
  }

  lemma LastReached(w: World, s: string, after: int, rest: seq<int>)
    requires Consistent(w) && rest == Tail(MessagesOf(w, s), after) && rest != []
    requires WatermarkOf(w, s) == rest[|rest| - 1]
    ensures UpToDate(w, s)
  {
    assert Booked(w, s);
    var ids := MessagesOf(w, s);
    BatchCovers(ids, after, rest);
    Split(ids, after);
  }

  /** The rest of a pass: every session it still has to do is brought up to date. */
  lemma {:induction false} FoldRest(w: World, t: nat) returns (steps: seq<Step>, w': World)
    requires Between(w, t)
    ensures Path(w, steps, w') && Between(w', t) && Frame(w, w', t) && w'.threads[t].phase.todo == []
    ensures forall k :: 0 <= k < |w.threads[t].phase.todo| ==> UpToDate(w', w.threads[t].phase.todo[k].id)
    ensures forall s :: UpToDate(w, s) ==> UpToDate(w', s)
    decreases |w.threads[t].phase.todo|
  {
    var todo := w.threads[t].phase.todo;
    if todo == [] {
      steps, w' := [], w;
    } else {
      var w1 := FoldNext(w, t);
      var more;
      more, w' := FoldRest(w1, t);
      steps := [ReadTail(t), Work(t, FREE, false)] + more;
      PathOn(w, [ReadTail(t), Work(t, FREE, false)], w1, more, w');
      forall k | 0 <= k < |todo| ensures UpToDate(w', todo[k].id) {
        assert k > 0 ==> todo[k] == todo[1..][k - 1];
      }
    }
  }

  /** Claim, lock, and list the sessions. */
  lemma OpenPass(w: World, t: nat, i: nat, owner: string, candidate: nat, sessions: seq<string>, budget: nat)
    returns (w': World)
    requires Consistent(w) && Going(w) && t !in w.threads && !LocalOf(w, i).claim.running && w.holder == None
    requires Different(sessions) && budget > 0
    ensures Path(w, [Start(t, i, owner), TryLock(t, Some(candidate), Answered), Scan(t, sessions, budget)], w')
    ensures Between(w', t) && w'.threads[t].instance == i && w'.threads[t].owner == owner
    ensures w'.holder == Some(Held(Conn(i, candidate), 0)) && w'.messages == w.messages
    ensures |w'.threads[t].phase.todo| == |sessions| &&
            forall k :: 0 <= k < |sessions| ==> w'.threads[t].phase.todo[k].id == sessions[k]
    ensures forall s :: UpToDate(w', s) == UpToDate(w, s)
  {
    var s1, s2, s3 := Start(t, i, owner), TryLock(t, Some(candidate), Answered), Scan(t, sessions, budget);
    var w1, w2 := ClaimPass(w, t, i, owner, candidate);
    w' := Applied(w2, s3);
    ConsistentStep(w2, s3);
    GoingStep(w2, s3);
    ThreeSteps(w, s1, w1, s2, w2, s3, w');
  }

  lemma ClaimPass(w: World, t: nat, i: nat, owner: string, candidate: nat) returns (w1: World, w2: World)
    requires Consistent(w) && Going(w) && t !in w.threads && !LocalOf(w, i).claim.running && w.holder == None
    ensures Leads(w, Start(t, i, owner), w1) && Leads(w1, TryLock(t, Some(candidate), Answered), w2)
    ensures Consistent(w2) && Going(w2) && SameBooks(w, w2) && w2.holder == Some(Held(Conn(i, candidate), 0))
    ensures t in w2.threads && w2.threads[t] == Thread(i, owner, Scanning)
  {
    var s1, s2 := Start(t, i, owner), TryLock(t, Some(candidate), Answered);
    w1 := Applied(w, s1);
    ConsistentStep(w, s1);
    GoingStep(w, s1);
    StartClaims(w, t, i, owner);
    w2 := Applied(w1, s2);
    ConsistentStep(w1, s2);
    GoingStep(w1, s2);
    LockGranted(w1, t, candidate, Answered);
  }

  lemma ThreeSteps(w: World, s1: Step, w1: World, s2: Step, w2: World, s3: Step, w3: World)
    requires Leads(w, s1, w1) && Leads(w1, s2, w2) && Leads(w2, s3, w3)
    ensures Path(w, [s1, s2, s3], w3)
  {
    OneStep(w, s1);
    OneStep(w1, s2);
    OneStep(w2, s3);
    PathOn(w1, [s2], w2, [s3], w3);
    PathOn(w, [s1], w1, [s2] + [s3], w3);
    assert [s1] + ([s2] + [s3]) == [s1, s2, s3];
  }

  /** Stop, give the lock up, and record the outcome. */
  lemma ClosePass(w: World, t: nat) returns (w': World)
    requires Between(w, t) && w.holder.Some? && w.holder.value.again == 0
    ensures Path(w, [Stop(t, false), Release(t, false), Step.Record(t)], w') && SameBooks(w, w')
    ensures var i, owner := w.threads[t].instance, w.threads[t].owner;
            && w'.holder == None && !LocalOf(w', i).claim.running && owner in LocalOf(w', i).claim.last
            && !LocalOf(w', i).claim.last[owner].failed
  {
    var w1 := Applied(w, Stop(t, false));
    ConsistentStep(w, Stop(t, false));
    PassEnds(w1, t);
    var w2 := Applied(w1, Release(t, false));
    w' := Applied(w2, Step.Record(t));
    ThreeSteps(w, Stop(t, false), w1, Release(t, false), w2, Step.Record(t), w');
  }

  /** Main result: whatever happened before, an instance that is idle while the lock is free
      can run a pass that brings every session it lists up to date, records its success, and
      leaves the instance idle and the lock free again. */
  lemma PassCompletes(w: World, t: nat, i: nat, owner: string, candidate: nat, sessions: seq<string>, budget: nat)
    returns (steps: seq<Step>, w': World)
    requires Consistent(w) && Going(w) && t !in w.threads && !LocalOf(w, i).claim.running && w.holder == None
    requires Different(sessions) && budget > 0
    ensures Path(w, steps, w') && w'.messages == w.messages
    ensures forall s :: s in sessions || UpToDate(w, s) ==> UpToDate(w', s)
    ensures w'.holder == None && !LocalOf(w', i).claim.running && owner in LocalOf(w', i).claim.last &&
            !LocalOf(w', i).claim.last[owner].failed
  {
    var w1 := OpenPass(w, t, i, owner, candidate, sessions, budget);
    var more, w2 := FoldRest(w1, t);
    w' := ClosePass(w2, t);
    var opening := [Start(t, i, owner), TryLock(t, Some(candidate), Answered), Scan(t, sessions, budget)];
    var closing := [Stop(t, false), Release(t, false), Step.Record(t)];
    steps := opening + (more + closing);
    PathOn(w1, more, w2, closing, w');
    PathOn(w, opening, w1, more + closing, w');
    assert forall s :: s in sessions ==> exists k :: 0 <= k < |sessions| && sessions[k] == s;
  }
}
