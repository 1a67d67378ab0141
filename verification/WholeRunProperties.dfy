/** What holds of the loop with its model calls in place (internal/agent/loop.go:388-942,
    internal/agent/middleware.go:265-448). */
module WholeRunProperties {
  import opened Provider
  import opened Pairing
  import opened PairingSpec
  import opened PairingProperties
  import opened RoundsProperties
  import opened Compress
  import opened CompressProperties
  import opened CompressRuns
  import opened Middleware
  import opened OverflowProperties
  import opened StreamAssembly
  import opened StreamProperties
  import opened Attempts
  import opened ToolGate
  import Loop = AgentLoop
  import opened RunProperties
  import opened WholeRun

  // ---- The states of a run ------------------------------------------------------------------------

  /** One turn of the run, whatever it led to. */
  ghost predicate Grown(setup: Setup, base: seq<Message>, s0: Loop.State, t: Loop.Turn, s: Loop.State) {
    var e := Loop.TurnEffect(setup.loop, setup.env, s0.recovered, Loop.ViewOf(base, s0, t), t);
    && s.produced == s0.produced + e.messages && s.executed == s0.executed + e.executed
    && (e.next.Continue? ==> Loop.GoesOn(setup.loop, Loop.ViewOf(base, s0, t), t, s0, s))
  }

  /** The loop goes on after this turn. */
  ghost predicate Stays(setup: Setup, base: seq<Message>, s: Loop.State, t: Loop.Turn) {
    Loop.TurnEffect(setup.loop, setup.env, s.recovered, Loop.ViewOf(base, s, t), t).next.Continue?
  }

  ghost function Turning(setup: Setup, base: seq<Message>): (Loop.State, Loop.Turn, Loop.State) -> bool {
    (s0, t, s) => Loop.Inv(setup.env, s0) && Grown(setup, base, s0, t, s)
  }

  ghost function Staying(setup: Setup, base: seq<Message>): (Loop.State, Loop.Turn) -> bool {
    (s, t) => Stays(setup, base, s, t)
  }

  ghost predicate Linked(turning: (Loop.State, Loop.Turn, Loop.State) -> bool, staying: (Loop.State, Loop.Turn) -> bool,
                         turns: seq<Loop.Turn>, states: seq<Loop.State>) {
    && |states| == |turns| + 1
    && (forall n :: 0 <= n < |turns| ==> turning(states[n], turns[n], states[n + 1]))
    && (forall n :: 0 <= n < |turns| - 1 ==> staying(states[n], turns[n]))
  }

  /** The states between the turns, and the one after the last turn; only the last turn may
      leave the loop. */
  ghost predicate RunStates(setup: Setup, base: seq<Message>, turns: seq<Loop.Turn>, states: seq<Loop.State>) {
    states != [] && states[0] == Loop.FRESH && Linked(Turning(setup, base), Staying(setup, base), turns, states)
  }

  lemma LinkedNext(turning: (Loop.State, Loop.Turn, Loop.State) -> bool, staying: (Loop.State, Loop.Turn) -> bool,
                   turns: seq<Loop.Turn>, states: seq<Loop.State>, turns': seq<Loop.Turn>, states': seq<Loop.State>)
    requires Linked(turning, staying, turns, states) && |turns'| == |turns| + 1 == |states| && |states'| == |states| + 1
    requires turns' == turns + [turns'[|turns|]] && states' == states + [states'[|states|]]
    requires turns != [] ==> staying(states[|turns| - 1], turns[|turns| - 1])
    requires turning(states[|turns|], turns'[|turns|], states'[|states|])
    ensures Linked(turning, staying, turns', states') && states'[0] == states[0]
  {
  }

  /** A run that arrived somewhere took its last turn from a run on its course. */
  lemma LastTurn(setup: Setup, base: seq<Message>, turns: seq<Loop.Turn>, earlier: seq<Loop.State>, s: Loop.State,
                 next: Loop.Next) returns (n: nat)
    requires earlier != [] && |earlier| <= |turns|
    requires Loop.Arrived(setup.loop, setup.env, base, Listed(turns), earlier, s, next)
    ensures n == |earlier| - 1
    ensures Loop.OnCourse(setup.loop, setup.env, base, Listed(turns), earlier[..n], earlier[n])
    ensures Turning(setup, base)(earlier[n], turns[n], s)
    ensures next.Continue? ==> Staying(setup, base)(earlier[n], turns[n])
  {
    n := |earlier| - 1;
    Loop.OnCourseInv(setup.loop, setup.env, base, Listed(turns), earlier[..n], earlier[n]);
    TurnTurns(setup, base, earlier[n], turns[n], s, next, n == 0);
  }

  lemma TurnTurns(setup: Setup, base: seq<Message>, s0: Loop.State, t: Loop.Turn, s: Loop.State, next: Loop.Next,
                  first: bool)
    requires Loop.Inv(setup.env, s0) && Loop.Passed(setup.loop, setup.env, base, s0, t, s, next, first)
    ensures Turning(setup, base)(s0, t, s) && (next.Continue? ==> Staying(setup, base)(s0, t))
  {
  }

  lemma Joined(turning: (Loop.State, Loop.Turn, Loop.State) -> bool, staying: (Loop.State, Loop.Turn) -> bool,
               turns: seq<Loop.Turn>, earlier: seq<Loop.State>, s: Loop.State, n: nat)
    requires |earlier| == n + 1 <= |turns|
    requires Linked(turning, staying, turns[..n], earlier[..n] + [earlier[n]]) && earlier[0] == Loop.FRESH
    requires n > 0 ==> staying(earlier[n - 1], turns[n - 1])
    requires turning(earlier[n], turns[n], s)
    ensures Linked(turning, staying, turns[..n + 1], earlier + [s]) && (earlier + [s])[0] == Loop.FRESH
  {
    assert earlier[..n] + [earlier[n]] == earlier;
    LinkedNext(turning, staying, turns[..n], earlier, turns[..n + 1], earlier + [s]);
  }

  lemma {:induction false} CourseReached(setup: Setup, base: seq<Message>, turns: seq<Loop.Turn>,
                                         earlier: seq<Loop.State>, s: Loop.State)
    requires |earlier| <= |turns| && Loop.OnCourse(setup.loop, setup.env, base, Listed(turns), earlier, s)
    ensures RunStates(setup, base, turns[..|earlier|], earlier + [s])
    ensures earlier != [] ==> Staying(setup, base)(earlier[|earlier| - 1], turns[|earlier| - 1])
    decreases |earlier|
  {
    if earlier == [] {
      assert s == Loop.FRESH;
    } else {
      var n := LastTurn(setup, base, turns, earlier, s, Loop.Continue);
      CourseReached(setup, base, turns, earlier[..n], earlier[n]);
      assert (earlier[..n] + [earlier[n]])[0] == earlier[0];
      Joined(Turning(setup, base), Staying(setup, base), turns, earlier, s, n);
    }
  }

  lemma ArrivedReached(setup: Setup, base: seq<Message>, turns: seq<Loop.Turn>, earlier: seq<Loop.State>,
                       s: Loop.State, n: nat)
    requires |earlier| == |turns| == n + 1
    requires Loop.OnCourse(setup.loop, setup.env, base, Listed(turns), earlier[..n], earlier[n])
    requires Turning(setup, base)(earlier[n], turns[n], s)
    ensures RunStates(setup, base, turns, earlier + [s])
  {
    CourseReached(setup, base, turns, earlier[..n], earlier[n]);
    assert (earlier[..n] + [earlier[n]])[0] == earlier[0] && turns[..n + 1] == turns;
    Joined(Turning(setup, base), Staying(setup, base), turns, earlier, s, n);
  }

  /** Every run of the loop reaches its states one by one. */
  lemma RunReached(setup: Setup, base: seq<Message>, turns: seq<Loop.Turn>, earlier: seq<Loop.State>,
                   last: Loop.State, outcome: Loop.Outcome)
    requires |turns| == |earlier|
    requires Loop.Course(setup.loop, setup.env, base, Listed(turns), earlier, last, outcome)
    ensures RunStates(setup, base, turns, earlier + [last]) && (earlier + [last])[..|turns|] == earlier
  {
    if outcome == Loop.OUT_OF_TURNS {
      CourseReached(setup, base, turns, earlier, last);
      assert turns[..|earlier|] == turns;
    } else {
      var n := LastTurn(setup, base, turns, earlier, last, Loop.Exit(outcome));
      ArrivedReached(setup, base, turns, earlier, last, n);
    }
  }

  // ---- The record --------------------------------------------------------------------------------------

  /** The provider streams no tool results. */
  ghost predicate Speaks(arounds: nat -> Around) {
    forall n, k, view :: Spoken(arounds(n).model(k, view))
  }

  ghost predicate Spoken(source: Source) {
    source.Streams? ==>
      forall n :: 0 <= n < |source.events| && source.events[n].BlockStart? && source.events[n].block.Some? ==>
        !source.events[n].block.value.ToolResult?
  }

  predicate NoResults(content: seq<Block>) {
    forall k :: 0 <= k < |content| ==> !content[k].ToolResult?
  }

  lemma {:induction false} ClosedSpoken(source: Source, n: nat, decode: Decoder)
    requires Spoken(source) && source.Streams? && n <= |source.events|
    ensures NoResults(ClosedBlocks(source.events, n, decode))
  {
    if n > 0 {
      ClosedSpoken(source, n - 1, decode);
    }
  }

  lemma {:induction false} OpenSpoken(source: Source, idxs: seq<int>, decode: Decoder)
    requires Spoken(source) && source.Streams? && AllOpen(source.events, idxs)
    ensures NoResults(OpenBlocks(source.events, idxs, decode))
  {
    if idxs != [] {
      OpenSpoken(source, idxs[..|idxs| - 1], decode);
    }
  }

  lemma ReadSpoken(source: Source, decode: Decoder, r: Reading, idxs: seq<int>)
    requires Spoken(source) && ReadWhole(source, decode, r, idxs)
    ensures NoResults(r.content)
  {
    ClosedSpoken(source, |source.events|, decode);
    OpenSpoken(source, idxs, decode);
  }

  /** A model call gives the loop an assistant's blocks, and their calls. */
  lemma MadeSpoken(setup: Setup, base: seq<Message>, around: Around, s: Loop.State, t: Loop.Turn, m: Made)
    requires TurnMade(setup, base, around, s, t, m) && forall k, view :: Spoken(around.model(k, view))
    ensures Loop.Assembled(t) && (t.attempt.Some? ==> NoResults(t.attempt.value.content))
  {
    if t.attempt.Some? {
      var last := m.tries[|m.tries| - 1];
      ReadSpoken(around.model(|m.tries| - 1, last.sent.view), setup.decode, m.reading, m.idxs);
    }
  }

  lemma {:induction false} DropEmptySpoken(content: seq<Block>)
    requires NoResults(content)
    ensures NoResults(Loop.DropEmptyBlocks(content))
  {
    if content != [] {
      DropEmptySpoken(content[..|content| - 1]);
    }
  }

  /** What a turn adds to the record has its roles right and no empty message. */
  lemma EffectClean(cfg: Loop.Config, env: Env, recovered: bool, view: seq<Message>, t: Loop.Turn)
    requires Loop.Assembled(t) && (t.attempt.Some? ==> NoResults(t.attempt.value.content))
    ensures var added := Loop.TurnEffect(cfg, env, recovered, view, t).messages; RoleClean(added) && NonEmpty(added)
  {
    if t.attempt.Some? {
      var r := t.attempt.value;
      RecordedFilled(cfg, env, recovered, view, t);
      if Loop.TurnEffect(cfg, env, recovered, view, t).messages != [] {
        MessageClean(r.content);
        AnswersClean(env, t, r);
        JoinClean([Message(RoleAssistant, Loop.DropEmptyBlocks(r.content))], Loop.Answers(env, t, r));
      }
    }
  }

  lemma MessageClean(content: seq<Block>)
    requires NoResults(content) && Loop.DropEmptyBlocks(content) != []
    ensures var m := Message(RoleAssistant, Loop.DropEmptyBlocks(content)); RoleClean([m]) && NonEmpty([m])
  {
    DropEmptySpoken(content);
  }

  lemma AnswersClean(env: Env, t: Loop.Turn, r: Loop.ModelResult)
    ensures RoleClean(Loop.Answers(env, t, r)) && NonEmpty(Loop.Answers(env, t, r))
  {
  }

  /** A turn records a message only if it has a block. */
  lemma RecordedFilled(cfg: Loop.Config, env: Env, recovered: bool, view: seq<Message>, t: Loop.Turn)
    requires Loop.Assembled(t) && t.attempt.Some?
    ensures var e := Loop.TurnEffect(cfg, env, recovered, view, t);
            e.messages == [] ||
            (Loop.DropEmptyBlocks(t.attempt.value.content) != [] &&
             e.messages == [Message(RoleAssistant, Loop.DropEmptyBlocks(t.attempt.value.content))] +
                           Loop.Answers(env, t, t.attempt.value))
  {
    Loop.DropEmptyKeepsCalls(t.attempt.value.content);
    Loop.CallsSameIds(t.attempt.value.content);
  }

  lemma JoinClean(a: seq<Message>, b: seq<Message>)
    requires RoleClean(a) && NonEmpty(a) && RoleClean(b) && NonEmpty(b)
    ensures RoleClean(a + b) && NonEmpty(a + b)
  {
  }

  ghost predicate CleanRecord(s: Loop.State) { RoleClean(s.produced) && NonEmpty(s.produced) }

  lemma {:induction false} RecordClean(setup: Setup, base: seq<Message>, arounds: nat -> Around, turns: seq<Loop.Turn>,
                                       made: seq<Made>, states: seq<Loop.State>, n: nat)
    requires RunStates(setup, base, turns, states) && Speaks(arounds) && n <= |turns|
    requires Composed(setup, base, arounds, turns, made, states[..|turns|])
    ensures CleanRecord(states[n])
  {
    if n == 0 {
      FreshClean();
    } else {
      RecordClean(setup, base, arounds, turns, made, states, n - 1);
      CleanNext(setup, base, arounds, turns, made, states, n - 1);
    }
  }

  lemma FreshClean()
    ensures CleanRecord(Loop.FRESH)
  {
  }

  lemma CleanNext(setup: Setup, base: seq<Message>, arounds: nat -> Around, turns: seq<Loop.Turn>, made: seq<Made>,
                  states: seq<Loop.State>, n: nat)
    requires RunStates(setup, base, turns, states) && Speaks(arounds) && n < |turns|
    requires Composed(setup, base, arounds, turns, made, states[..|turns|]) && CleanRecord(states[n])
    ensures CleanRecord(states[n + 1])
  {
    LastMade(setup, base, arounds, turns, made, states, n);
    GrowsClean(setup, base, arounds(n), states[n], turns[n], made[n], states[n + 1]);
  }

  /** Turn n of the run, as it was made and as it was taken. */
  lemma LastMade(setup: Setup, base: seq<Message>, arounds: nat -> Around, turns: seq<Loop.Turn>, made: seq<Made>,
                 states: seq<Loop.State>, n: nat)
    requires RunStates(setup, base, turns, states) && n < |turns|
    requires Composed(setup, base, arounds, turns, made, states[..|turns|])
    ensures |made| == |turns| && TurnMade(setup, base, arounds(n), states[n], turns[n], made[n])
    ensures Grown(setup, base, states[n], turns[n], states[n + 1])
  {
    assert Turning(setup, base)(states[n], turns[n], states[n + 1]);
    assert Rule(setup, base, arounds)(n, states[..|turns|][n], turns[n], made[n]);
  }

  lemma GrowsClean(setup: Setup, base: seq<Message>, around: Around, s0: Loop.State, t: Loop.Turn, m: Made,
                   s: Loop.State)
    requires TurnMade(setup, base, around, s0, t, m) && Grown(setup, base, s0, t, s)
    requires forall k, view :: Spoken(around.model(k, view))
    requires RoleClean(s0.produced) && NonEmpty(s0.produced)
    ensures RoleClean(s.produced) && NonEmpty(s.produced)
  {
    MadeSpoken(setup, base, around, s0, t, m);
    EffectClean(setup.loop, setup.env, s0.recovered, Loop.ViewOf(base, s0, t), t);
    JoinClean(s0.produced, Loop.TurnEffect(setup.loop, setup.env, s0.recovered, Loop.ViewOf(base, s0, t), t).messages);
  }

  /** Main result: at the start of every iteration of every run, the history repaired once and
      the record since need no repair, as the loop assumes, exactly when the history was
      settled and no call id is used twice. */
  lemma RepairOnceSuffices(setup: Setup, history: seq<Message>, arounds: nat -> Around, turns: seq<Loop.Turn>,
                           made: seq<Made>, states: seq<Loop.State>, n: nat)
    requires RoleClean(history) && Speaks(arounds) && n < |turns|
    requires RunStates(setup, Repair(history), turns, states)
    requires Composed(setup, Repair(history), arounds, turns, made, states[..|turns|])
    ensures var all := Repair(history) + states[n].produced;
            Repair(all) == all <==> Settled(history) && Distinct(AllUses(all))
  {
    RecordClean(setup, Repair(history), arounds, turns, made, states, n);
    InvAt(setup, Repair(history), turns, states, n);
    RepairRoleClean(history);
    RepairOnce(history, states[n].produced);
  }

  lemma InvAt(setup: Setup, base: seq<Message>, turns: seq<Loop.Turn>, states: seq<Loop.State>, n: nat)
    requires RunStates(setup, base, turns, states) && n < |turns|
    ensures Loop.Inv(setup.env, states[n]) && Loop.AnsweredInOrder(states[n].produced)
    ensures Grown(setup, base, states[n], turns[n], states[n + 1])
  {
    assert Turning(setup, base)(states[n], turns[n], states[n + 1]);
  }

  // ---- Executions --------------------------------------------------------------------------------------

  /** The call was announced by the last stream of this model call, read to its end, and no
      other stream of the call reached the client. */
  ghost predicate Announced(setup: Setup, around: Around, m: Made, x: Loop.Execution) {
    m.tries != [] &&
    var source := SourceOf(around, m);
    && source.Streams? && LegalUpTo(source.events, |source.events|)
    && ReadWhole(source, setup.decode, m.reading, m.idxs) && x.stop == EndAfter(source.events, |source.events|).stop
    && (exists j :: 0 <= j < |m.reading.calls| && Screen(setup.env, m.reading.calls[j]) == Live(x.call))
    && m.reading.calls == CallsOf(m.reading.content)
    && (forall k :: 0 <= k < |m.tries| - 1 ==> !Delivered(m.tries[k].emitted, around.clients(k)))
  }

  lemma {:induction false} ExecutedLive(env: Env, calls: seq<Call>, n: nat, k: nat) returns (j: nat)
    requires n <= |calls| && k < |ToolGate.Executed(env, calls, n)|
    ensures j < n && Screen(env, calls[j]) == Live(ToolGate.Executed(env, calls, n)[k])
  {
    if Screen(env, calls[n - 1]).Live? && k == |ToolGate.Executed(env, calls, n)| - 1 {
      j := n - 1;
    } else {
      j := ExecutedLive(env, calls, n - 1, k);
    }
  }

  lemma TurnAnnounced(setup: Setup, base: seq<Message>, around: Around, s0: Loop.State, t: Loop.Turn, m: Made,
                      k: nat)
    requires TurnMade(setup, base, around, s0, t, m)
    requires k < |Loop.TurnEffect(setup.loop, setup.env, s0.recovered, Loop.ViewOf(base, s0, t), t).executed|
    ensures Announced(setup, around, m,
              Loop.TurnEffect(setup.loop, setup.env, s0.recovered, Loop.ViewOf(base, s0, t), t).executed[k])
  {
    var r := t.attempt.value;
    var j := ExecutedLive(setup.env, r.calls, |r.calls|, k);
    var last := m.tries[|m.tries| - 1];
    assert Reported(SourceOf(around, m), around.clients(|m.tries| - 1), setup.decode, last.emitted, last.reported);
    forall i | 0 <= i < |m.tries| - 1 ensures !Delivered(m.tries[i].emitted, around.clients(i)) {
      EarlierSilent(m.tries, around.model, around.clients, setup.decode, i);
    }
  }

  /** Main result: whatever a run executes was announced by a stream that was read to its end
      and whose frames are the only ones of its model call that the client saw. */
  lemma {:induction false} ExecutedWasAnnounced(setup: Setup, base: seq<Message>, arounds: nat -> Around,
                                                turns: seq<Loop.Turn>, made: seq<Made>, states: seq<Loop.State>,
                                                n: nat, k: nat) returns (m: nat)
    requires RunStates(setup, base, turns, states) && n <= |turns| && k < |states[n].executed|
    requires Composed(setup, base, arounds, turns, made, states[..|turns|])
    ensures m < n && Announced(setup, arounds(m), made[m], states[n].executed[k])
  {
    m := n - 1;
    InvAt(setup, base, turns, states, m);
    assert Rule(setup, base, arounds)(m, states[..|turns|][m], turns[m], made[m]);
    if k < |states[m].executed| {
      m := ExecutedWasAnnounced(setup, base, arounds, turns, made, states, m, k);
    } else {
      TurnAnnounced(setup, base, arounds(m), states[m], turns[m], made[m], k - |states[m].executed|);
    }
  }

  // ---- The compression cache ---------------------------------------------------------------------------

  /** The cache describes a prefix of the whole conversation, of which nothing was dropped. */
  ghost predicate InBooks(all: seq<Message>, books: Books) {
    books.viewDropped == 0 && Aligned(all, CacheOf(books))
  }

  /** No retry of the model call takes a user's message for the cached summary. */
  ghost predicate NeverMistaken(all: seq<Message>, m: Made) {
    m.tries != [] && Never(Mistaken(all, Attempts.Sent(m.tries)), |m.tries| - 1)
  }

  /** Retries that find a cache leave the count of dropped messages alone. */
  lemma {:induction false} DroppedStays(trail: seq<Outgoing>, n: nat)
    requires Trail(trail) && n < |trail| && trail[0].books.cache.Some?
    ensures trail[n].books.cache.Some? && trail[n].books.viewDropped == trail[0].books.viewDropped
  {
    if n > 0 {
      DroppedStays(trail, n - 1);
      assert Retries(trail, n - 1);
    }
  }

  /** The call behind the cached view. */
  function CallOf(setup: Setup, around: Around): CompressCall {
    CompressCall([], PolicyOf(setup.compress, around.overhead), around.summarize)
  }

  /** The trail of a model call starts with what compression hands on. */
  lemma CallTrail(setup: Setup, around: Around, all: seq<Message>, books: Books, t: Loop.Turn, m: Made)
    returns (trail: seq<Outgoing>)
    requires CallMade(setup, around, all, books, t, m) && setup.compress.window > 0
    requires m.tripped ==> books.cache.Some?
    ensures trail == Attempts.Sent(m.tries) && |trail| == |m.tries| && Trail(trail)
    ensures Handed(all, CallOf(setup, around), CacheOf(books), trail[0])
    ensures trail[0].books.cache.Some? && trail[0].books.viewDropped == books.viewDropped
    ensures t.booksAfter == trail[|trail| - 1].books
  {
    trail := Attempts.Sent(m.tries);
  }

  /** A model call keeps the cache with the conversation, when no retry is mistaken. */
  lemma TrailKeepsBooks(all: seq<Message>, call: CompressCall, c: Cache, trail: seq<Outgoing>)
    requires call.policy.keepRecent >= 1 && Paired(all) && Aligned(all, c) && Trail(trail)
    requires Handed(all, call, c, trail[0]) && trail[0].books.cache.Some? && trail[0].books.viewDropped == 0
    requires Never(Mistaken(all, trail), |trail| - 1) || NoSummaries(all)
    ensures trail[|trail| - 1].books.cache.Some? && InBooks(all, trail[|trail| - 1].books)
  {
    HandedStands(all, call, c, trail[0]);
    if NoSummaries(all) {
      PlainHistoryClean(all, trail, |trail| - 1);
    }
    TrailStands(all, trail, |trail| - 1);
    DroppedStays(trail, |trail| - 1);
  }

  /** A conversation that is well-formed now was so before its last messages. */
  lemma PairedBefore(base: seq<Message>, produced: seq<Message>, added: seq<Message>)
    requires Paired(base + (produced + added)) && Loop.AnsweredInOrder(produced)
    requires Loop.AnsweredInOrder(produced + added)
    ensures Paired(base + produced)
  {
    var all, before := base + (produced + added), base + produced;
    assert all == before + added && forall i :: 0 <= i < |before| ==> before[i] == all[i];
    BaseStaysStrict(base, produced + added);
    AllUsesConcat(before, added);
    DistinctParts(AllUses(before), AllUses(added));
    assert forall i :: 0 <= i < |produced| ==> produced[i] == all[|base| + i];
    ProducedStrict(base, produced);
  }

  /** A turn the loop goes on from, without a recovery, hands on the books of its model call. */
  lemma TurnCalls(setup: Setup, base: seq<Message>, around: Around, s0: Loop.State, t: Loop.Turn, m: Made,
                  s: Loop.State)
    requires TurnMade(setup, base, around, s0, t, m) && Grown(setup, base, s0, t, s) && Stays(setup, base, s0, t)
    requires around.turn.injected == [] && !s.recovered && s0.books.viewDropped == 0
    ensures CallMade(setup, around, base + s0.produced, s0.books, t, m) && s.books == t.booksAfter
  {
    assert CallsModel(around.turn);
    assert Loop.ViewOf(base, s0, around.turn) == base + s0.produced;
  }

  lemma Added(setup: Setup, base: seq<Message>, s0: Loop.State, t: Loop.Turn, s: Loop.State)
    returns (added: seq<Message>)
    requires Grown(setup, base, s0, t, s)
    ensures s.produced == s0.produced + added
  {
    added := Loop.TurnEffect(setup.loop, setup.env, s0.recovered, Loop.ViewOf(base, s0, t), t).messages;
  }

  lemma NotRecovered(setup: Setup, base: seq<Message>, s0: Loop.State, t: Loop.Turn, s: Loop.State)
    requires Grown(setup, base, s0, t, s) && Stays(setup, base, s0, t) && !s.recovered
    ensures !s0.recovered
  {
  }

  lemma CallGrowsBooks(setup: Setup, around: Around, all: seq<Message>, books: Books, t: Loop.Turn, m: Made,
                       added: seq<Message>, grown: seq<Message>)
    requires CallMade(setup, around, all, books, t, m) && setup.compress.window > 0 && grown == all + added
    requires m.tripped ==> books.cache.Some?
    requires Paired(all) && InBooks(all, books) && (NeverMistaken(all, m) || NoSummaries(all))
    ensures t.booksAfter.cache.Some? && InBooks(grown, t.booksAfter)
  {
    var trail := CallTrail(setup, around, all, books, t, m);
    TrailKeepsBooks(all, CallOf(setup, around), CacheOf(books), trail);
    AlignedGrows(all, added, CacheOf(t.booksAfter));
  }

  /** Iteration n as a model call on the whole conversation. */
  lemma TurnCallsAt(setup: Setup, base: seq<Message>, arounds: nat -> Around, turns: seq<Loop.Turn>, made: seq<Made>,
                    states: seq<Loop.State>, n: nat)
    requires RunStates(setup, base, turns, states) && n + 1 < |turns|
    requires Composed(setup, base, arounds, turns, made, states[..|turns|])
    requires arounds(n).turn.injected == [] && !states[n + 1].recovered && states[n].books.viewDropped == 0
    ensures CallMade(setup, arounds(n), base + states[n].produced, states[n].books, turns[n], made[n])
    ensures states[n + 1].books == turns[n].booksAfter
  {
    InvAt(setup, base, turns, states, n);
    assert Staying(setup, base)(states[n], turns[n]);
    assert Rule(setup, base, arounds)(n, states[..|turns|][n], turns[n], made[n]);
    TurnCalls(setup, base, arounds(n), states[n], turns[n], made[n], states[n + 1]);
  }

  lemma AddedAt(setup: Setup, base: seq<Message>, turns: seq<Loop.Turn>, states: seq<Loop.State>, n: nat)
    returns (added: seq<Message>)
    requires RunStates(setup, base, turns, states) && n < |turns|
    ensures base + states[n + 1].produced == base + states[n].produced + added
  {
    InvAt(setup, base, turns, states, n);
    added := Added(setup, base, states[n], turns[n], states[n + 1]);
    JoinedBehind(base, states[n].produced, added, states[n + 1].produced);
  }

  lemma JoinedBehind(base: seq<Message>, a: seq<Message>, b: seq<Message>, both: seq<Message>)
    requires both == a + b
    ensures base + both == base + a + b
  {
  }

  /** What a run is like now it was like an iteration before. */
  lemma OneBefore(setup: Setup, base: seq<Message>, turns: seq<Loop.Turn>, states: seq<Loop.State>, n: nat)
    requires RunStates(setup, base, turns, states) && n + 1 < |turns|
    requires Paired(base + states[n + 1].produced) && !states[n + 1].recovered
    ensures Paired(base + states[n].produced) && !states[n].recovered
  {
    InvAt(setup, base, turns, states, n + 1);
    InvAt(setup, base, turns, states, n);
    assert Staying(setup, base)(states[n], turns[n]);
    NotRecovered(setup, base, states[n], turns[n], states[n + 1]);
    var added := Added(setup, base, states[n], turns[n], states[n + 1]);
    PairedBefore(base, states[n].produced, added);
  }

  /** One iteration keeps the cache with the conversation. */
  lemma IterationKeepsCache(setup: Setup, base: seq<Message>, arounds: nat -> Around, turns: seq<Loop.Turn>,
                            made: seq<Made>, states: seq<Loop.State>, n: nat)
    requires RunStates(setup, base, turns, states) && n + 1 < |turns|
    requires Composed(setup, base, arounds, turns, made, states[..|turns|])
    requires setup.compress.window > 0 && (made[n].tripped ==> states[n].books.cache.Some?)
    requires arounds(n).turn.injected == [] && !states[n + 1].recovered
    requires Paired(base + states[n].produced) && InBooks(base + states[n].produced, states[n].books)
    requires NeverMistaken(base + states[n].produced, made[n]) || NoSummaries(base + states[n].produced)
    ensures InBooks(base + states[n + 1].produced, states[n + 1].books) && states[n + 1].books.cache.Some?
  {
    TurnCallsAt(setup, base, arounds, turns, made, states, n);
    var added := AddedAt(setup, base, turns, states, n);
    CallGrowsBooks(setup, arounds(n), base + states[n].produced, states[n].books, turns[n], made[n], added,
                   base + states[n + 1].produced);
  }

  /** The model calls of the first n iterations mistake no user's message for the summary. */
  ghost predicate Unmistaken(base: seq<Message>, made: seq<Made>, states: seq<Loop.State>, n: nat) {
    forall m :: 0 <= m < n && m < |states| && m < |made| ==>
      NeverMistaken(base + states[m].produced, made[m]) || NoSummaries(base + states[m].produced)
  }

  ghost function KeptAt(base: seq<Message>, states: seq<Loop.State>): nat -> bool {
    (n: nat) => n < |states| && InBooks(base + states[n].produced, states[n].books) &&
                (n > 0 ==> states[n].books.cache.Some?)
  }

  /** A conversation as a model call may find it: well-formed, and nothing recovered yet. */
  ghost function FineAt(base: seq<Message>, states: seq<Loop.State>): nat -> bool {
    (n: nat) => n < |states| && Paired(base + states[n].produced) && !states[n].recovered
  }

  lemma {:induction false} FineBefore(setup: Setup, base: seq<Message>, turns: seq<Loop.Turn>, states: seq<Loop.State>,
                                      n: nat, m: nat)
    requires RunStates(setup, base, turns, states) && m <= n < |turns| && FineAt(base, states)(n)
    ensures FineAt(base, states)(m)
    decreases n - m
  {
    if m < n {
      FineBefore(setup, base, turns, states, n, m + 1);
      OneBefore(setup, base, turns, states, m);
    }
  }

  lemma KeepsNext(setup: Setup, base: seq<Message>, arounds: nat -> Around, turns: seq<Loop.Turn>, made: seq<Made>,
                  states: seq<Loop.State>, n: nat)
    requires RunStates(setup, base, turns, states) && n + 1 < |turns|
    requires Composed(setup, base, arounds, turns, made, states[..|turns|])
    requires setup.compress.window > 0 && !made[0].tripped && arounds(n).turn.injected == []
    requires FineAt(base, states)(n) && FineAt(base, states)(n + 1) && Unmistaken(base, made, states, n + 1)
    ensures OverflowProperties.Next(KeptAt(base, states), n)
  {
    if KeptAt(base, states)(n) {
      IterationKeepsCache(setup, base, arounds, turns, made, states, n);
    }
  }

  /** With a breaker that lets the first call through every later state keeps the books. */
  lemma CachedRun(setup: Setup, base: seq<Message>, arounds: nat -> Around, turns: seq<Loop.Turn>,
                  made: seq<Made>, states: seq<Loop.State>, n: nat)
    requires RunStates(setup, base, turns, states) && n < |turns|
    requires Composed(setup, base, arounds, turns, made, states[..|turns|])
    requires setup.compress.window > 0 && (n > 0 ==> !made[0].tripped) && !states[n].recovered
    requires forall m :: 0 <= m < n ==> arounds(m).turn.injected == []
    requires Paired(base + states[n].produced) && Unmistaken(base, made, states, n)
    ensures InBooks(base + states[n].produced, states[n].books) && (n > 0 ==> states[n].books.cache.Some?)
  {
    var kept := KeptAt(base, states);
    FineNow(base, states, n);
    forall m: nat | m < n ensures OverflowProperties.Next(kept, m) {
      KeepsNextBefore(setup, base, arounds, turns, made, states, n, m);
    }
    KeptFirst(setup, base, turns, states);
    Persists(kept, n, n);
  }

  lemma FineNow(base: seq<Message>, states: seq<Loop.State>, n: nat)
    requires n < |states| && Paired(base + states[n].produced) && !states[n].recovered
    ensures FineAt(base, states)(n)
  {
  }

  lemma KeptFirst(setup: Setup, base: seq<Message>, turns: seq<Loop.Turn>, states: seq<Loop.State>)
    requires RunStates(setup, base, turns, states)
    ensures KeptAt(base, states)(0)
  {
  }

  lemma KeepsNextBefore(setup: Setup, base: seq<Message>, arounds: nat -> Around, turns: seq<Loop.Turn>,
                        made: seq<Made>, states: seq<Loop.State>, n: nat, m: nat)
    requires RunStates(setup, base, turns, states) && m < n < |turns|
    requires Composed(setup, base, arounds, turns, made, states[..|turns|])
    requires setup.compress.window > 0 && !made[0].tripped && arounds(m).turn.injected == []
    requires FineAt(base, states)(n) && Unmistaken(base, made, states, n)
    ensures OverflowProperties.Next(KeptAt(base, states), m)
  {
    FineBefore(setup, base, turns, states, n, m);
    FineBefore(setup, base, turns, states, n, m + 1);
    KeepsNext(setup, base, arounds, turns, made, states, m);
  }

  // ---- No cache ----------------------------------------------------------------------------------------

  lemma {:induction false} TrailUncached(trail: seq<Outgoing>, n: nat)
    requires Trail(trail) && n < |trail| && trail[0].books.cache.None?
    ensures trail[n].books.cache.None?
  {
    if n > 0 {
      TrailUncached(trail, n - 1);
      assert Retries(trail, n - 1);
    }
  }

  /** A call that finds the breaker tripped makes no cache. */
  lemma CallUncached(setup: Setup, around: Around, view: seq<Message>, books: Books, t: Loop.Turn, m: Made)
    requires CallMade(setup, around, view, books, t, m) && m.tripped && books.cache.None?
    ensures t.booksAfter.cache.None?
  {
    var trail := Attempts.Sent(m.tries);
    TrailUncached(trail, |trail| - 1);
  }

  lemma TurnUncached(setup: Setup, base: seq<Message>, around: Around, s0: Loop.State, t: Loop.Turn, m: Made,
                     s: Loop.State)
    requires TurnMade(setup, base, around, s0, t, m) && Grown(setup, base, s0, t, s) && Stays(setup, base, s0, t)
    requires m.tripped && s0.books.cache.None?
    ensures s.books.cache.None?
  {
    if CallsModel(around.turn) {
      CallUncached(setup, around, Loop.ViewOf(base, s0, around.turn), s0.books, t, m);
    }
  }

  lemma {:induction false} UncachedRun(setup: Setup, base: seq<Message>, arounds: nat -> Around, turns: seq<Loop.Turn>,
                                       made: seq<Made>, states: seq<Loop.State>, n: nat)
    requires RunStates(setup, base, turns, states) && n < |turns|
    requires Composed(setup, base, arounds, turns, made, states[..|turns|])
    requires forall m :: 0 <= m < n ==> made[m].tripped
    ensures states[n].books.cache.None?
  {
    if n > 0 {
      var m := n - 1;
      UncachedRun(setup, base, arounds, turns, made, states, m);
      assert Turning(setup, base)(states[m], turns[m], states[n]) && Staying(setup, base)(states[m], turns[m]);
      assert Rule(setup, base, arounds)(m, states[..|turns|][m], turns[m], made[m]);
      TurnUncached(setup, base, arounds(m), states[m], turns[m], made[m], states[n]);
    }
  }

  /** Main result: over compression, retries and the loop itself, through any run that has
      not recovered a truncation, the cache describes a prefix of the conversation at the
      start of every iteration and no message was dropped from it, as long as no retry takes
      a user's message for the summary. When the run finds the breaker tripped it never has a
      cache: every call of it sends views that were not compressed. */
  lemma RunKeepsCache(setup: Setup, base: seq<Message>, arounds: nat -> Around, turns: seq<Loop.Turn>,
                      made: seq<Made>, states: seq<Loop.State>, n: nat)
    requires RunStates(setup, base, turns, states) && n < |turns|
    requires Composed(setup, base, arounds, turns, made, states[..|turns|]) && Steady(made)
    requires setup.compress.window > 0 && !states[n].recovered
    requires forall m :: 0 <= m < n ==> arounds(m).turn.injected == []
    requires Paired(base + states[n].produced) && Unmistaken(base, made, states, n)
    ensures if n > 0 && made[0].tripped then states[n].books.cache.None? && forall m :: 0 <= m < n ==> made[m].tripped
            else InBooks(base + states[n].produced, states[n].books) && (n > 0 ==> states[n].books.cache.Some?)
  {
    if n > 0 && made[0].tripped {
      UncachedRun(setup, base, arounds, turns, made, states, n);
    } else {
      CachedRun(setup, base, arounds, turns, made, states, n);
    }
  }
}
