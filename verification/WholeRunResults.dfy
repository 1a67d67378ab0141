/** From the streamed arguments to the recorded result: what a run over real model calls
    executes, and what it tells the model of it (internal/agent/loop.go:893-1385). */
module WholeRunResults {
  import opened Provider
  import opened Selections
  import opened StreamAssembly
  import opened Compress
  import opened Middleware
  import opened StreamProperties
  import opened StreamBlocks
  import opened Attempts
  import opened ToolGate
  import opened GateProperties
  import Loop = AgentLoop
  import RunTrace
  import opened RunResults
  import opened WholeRun
  import opened WholeRunProperties

  // ---- Results ----------------------------------------------------------------------------

  /** The result shown was given by an execution of the run, or it reports an error. */
  ghost predicate Backed(env: Env, executed: seq<Loop.Execution>, b: Block) {
    b.ToolResult? &&
    ((exists x :: x in executed && RunTrace.Shows(b, x.call.id, env.execute(x.call))) ||
     (b.isError && b.toolContent != ""))
  }

  /** Every result of the record is backed. */
  ghost predicate Truthful(env: Env, produced: seq<Message>, executed: seq<Loop.Execution>) {
    forall i, k :: 0 <= i < |produced| && produced[i].role == RoleUser && 0 <= k < |produced[i].content| ==>
      Backed(env, executed, produced[i].content[k])
  }

  /** The record shows what this execution gave. */
  ghost predicate ShownIn(env: Env, produced: seq<Message>, x: Loop.Execution) {
    exists i, k :: 0 <= i < |produced| && produced[i].role == RoleUser && 0 <= k < |produced[i].content| &&
                   RunTrace.Shows(produced[i].content[k], x.call.id, env.execute(x.call))
  }

  /** Every execution is told of. */
  ghost predicate Complete(env: Env, produced: seq<Message>, executed: seq<Loop.Execution>) {
    forall j :: 0 <= j < |executed| ==> ShownIn(env, produced, executed[j])
  }

  lemma RunsOneWay(c: Call, a: Call, b: Call)
    requires RunsAs(c, a) && RunsAs(c, b)
    ensures a == b
  {
    OneWay(c.args, a.args, b.args);
  }

  /** The answer to a call that ran shows what one of the turn's executions gave. */
  lemma AnswerBacked(env: Env, t: Loop.Turn, r: Loop.ModelResult, m: Message, k: nat)
    requires AnswersBatch(env, t, r, m) && k < |m.content|
    ensures Backed(env, Loop.Executed(env, t, r), m.content[k])
  {
    assert Answer(env, r.calls[k], BatchRuns(env, t, r), m.content[k]);
    if BatchRuns(env, t, r) && Permitted(env, r.calls[k]) {
      var executed := Loop.Executed(env, t, r);
      var live :| RunsAs(r.calls[k], live) && RunTrace.Shows(m.content[k], r.calls[k].id, env.execute(live));
      var at := TurnExecutes(env, t, r);
      assert PermittedAt(env, r.calls)(k);
      var j: nat :| j < |at| && at[j] == k;
      assert RanAt(r.calls, r.stop, executed)(j, k);
      RunsOneWay(r.calls[k], live, executed[j].call);
      assert executed[j] in executed;
    }
  }

  /** Each execution of a turn is shown by the answer to its call. */
  lemma ExecutionShown(env: Env, t: Loop.Turn, r: Loop.ModelResult, m: Message, j: nat)
    requires AnswersBatch(env, t, r, m) && j < |Loop.Executed(env, t, r)|
    ensures var x := Loop.Executed(env, t, r)[j];
            exists k :: 0 <= k < |m.content| && RunTrace.Shows(m.content[k], x.call.id, env.execute(x.call))
  {
    var executed := Loop.Executed(env, t, r);
    var at := TurnExecutes(env, t, r);
    assert RanAt(r.calls, r.stop, executed)(j, at[j]);
    var k := at[j];
    assert k in at && PermittedAt(env, r.calls)(k);
    assert Answer(env, r.calls[k], BatchRuns(env, t, r), m.content[k]);
    var live :| RunsAs(r.calls[k], live) && RunTrace.Shows(m.content[k], r.calls[k].id, env.execute(live));
    RunsOneWay(r.calls[k], live, executed[j].call);
  }

  lemma BackedMore(env: Env, a: seq<Loop.Execution>, b: seq<Loop.Execution>, block: Block)
    requires Backed(env, a, block) || Backed(env, b, block)
    ensures Backed(env, a + b, block)
  {
  }

  /** Truthful and complete parts make a truthful and complete whole. */
  lemma JoinTruth(env: Env, p: seq<Message>, x: seq<Loop.Execution>, q: seq<Message>, y: seq<Loop.Execution>)
    requires Truthful(env, p, x) && Complete(env, p, x) && Truthful(env, q, y) && Complete(env, q, y)
    ensures Truthful(env, p + q, x + y) && Complete(env, p + q, x + y)
  {
    forall i, k | 0 <= i < |p + q| && (p + q)[i].role == RoleUser && 0 <= k < |(p + q)[i].content|
      ensures Backed(env, x + y, (p + q)[i].content[k])
    {
      BackedMore(env, x, y, (p + q)[i].content[k]);
    }
    forall j | 0 <= j < |x + y| ensures ShownIn(env, p + q, (x + y)[j]) {
      if j < |x| {
        ShownMore(env, p, q, x[j]);
      } else {
        ShownMore(env, p, q, y[j - |x|]);
      }
    }
  }

  lemma ShownMore(env: Env, p: seq<Message>, q: seq<Message>, x: Loop.Execution)
    requires ShownIn(env, p, x) || ShownIn(env, q, x)
    ensures ShownIn(env, p + q, x)
  {
    if ShownIn(env, p, x) {
      var i, k :| 0 <= i < |p| && p[i].role == RoleUser && 0 <= k < |p[i].content| &&
                  RunTrace.Shows(p[i].content[k], x.call.id, env.execute(x.call));
      assert (p + q)[i] == p[i];
    } else {
      var i, k :| 0 <= i < |q| && q[i].role == RoleUser && 0 <= k < |q[i].content| &&
                  RunTrace.Shows(q[i].content[k], x.call.id, env.execute(x.call));
      assert (p + q)[|p| + i] == q[i];
    }
  }

  /** What one turn adds is truthful and complete. */
  lemma MessageTruth(cfg: Loop.Config, env: Env, t: Loop.Turn, r: Loop.ModelResult)
    ensures var e := Loop.MessageEffect(cfg, env, t, r);
            Truthful(env, e.messages, e.executed) && Complete(env, e.messages, e.executed)
  {
    var e := Loop.MessageEffect(cfg, env, t, r);
    BatchAnswered(env, t, r);
    if Loop.Answers(env, t, r) == [] {
      NoneExecuted(env, t, r);
    } else {
      var m := Loop.Answers(env, t, r)[0];
      assert e.messages[1] == m;
      forall k | 0 <= k < |m.content| ensures Backed(env, e.executed, m.content[k]) {
        AnswerBacked(env, t, r, m, k);
      }
      forall j | 0 <= j < |e.executed| ensures ShownIn(env, e.messages, e.executed[j]) {
        ExecutionShown(env, t, r, m, j);
      }
    }
  }

  /** Nothing is executed in a turn whose calls are not answered. */
  lemma NoneExecuted(env: Env, t: Loop.Turn, r: Loop.ModelResult)
    requires Loop.Answers(env, t, r) == []
    ensures Loop.Executed(env, t, r) == []
  {
    if r.calls == [] {
      assert ToolGate.Executed(env, r.calls, 0) == [];
    }
  }

  lemma EffectTruth(cfg: Loop.Config, env: Env, recovered: bool, view: seq<Message>, t: Loop.Turn)
    ensures var e := Loop.TurnEffect(cfg, env, recovered, view, t);
            Truthful(env, e.messages, e.executed) && Complete(env, e.messages, e.executed)
  {
    if t.attempt.Some? {
      MessageTruth(cfg, env, t, t.attempt.value);
    }
  }

  /** Main result: at every moment of a run, each result of the record is what an execution of
      the run gave, or reports an error; and each execution is shown in the record. */
  lemma {:induction false} ResultsAreTrue(setup: Setup, base: seq<Message>, turns: seq<Loop.Turn>,
                                          states: seq<Loop.State>, n: nat)
    requires RunStates(setup, base, turns, states) && n <= |turns|
    ensures Truthful(setup.env, states[n].produced, states[n].executed)
    ensures Complete(setup.env, states[n].produced, states[n].executed)
  {
    if n > 0 {
      ResultsAreTrue(setup, base, turns, states, n - 1);
      InvAt(setup, base, turns, states, n - 1);
      GrownTruth(setup, base, states[n - 1], turns[n - 1], states[n]);
    }
  }

  lemma GrownTruth(setup: Setup, base: seq<Message>, s0: Loop.State, t: Loop.Turn, s: Loop.State)
    requires Grown(setup, base, s0, t, s)
    requires Truthful(setup.env, s0.produced, s0.executed) && Complete(setup.env, s0.produced, s0.executed)
    ensures Truthful(setup.env, s.produced, s.executed) && Complete(setup.env, s.produced, s.executed)
  {
    var e := Loop.TurnEffect(setup.loop, setup.env, s0.recovered, Loop.ViewOf(base, s0, t), t);
    EffectTruth(setup.loop, setup.env, s0.recovered, Loop.ViewOf(base, s0, t), t);
    JoinTruth(setup.env, s0.produced, s0.executed, e.messages, e.executed);
  }

  // ---- Arguments ----------------------------------------------------------------------------

  /** The call runs with the arguments that the block started by event s streamed: what its
      fragments decode to, or what it started with if none came, without the description. */
  ghost predicate RunsAsStreamed(events: seq<Event>, s: nat, decode: Decoder, live: Call) {
    s < |events| && StartsBlock(events[s]) && events[s].block.value.ToolUse? &&
    var start := events[s].block.value;
    var text := Deltas(events, events[s].index, s + 1, EndFrom(events, s, s + 1));
    live.id == start.useId && live.name == start.toolName &&
    if text == "" then WithoutDescription(start.input, live.args)
    else decode(text).Some? && WithoutDescription(decode(text).value, live.args)
  }

  lemma StreamedAs(setup: Setup, around: Around, m: Made, x: Loop.Execution) returns (s: nat)
    requires Announced(setup, around, m, x)
    ensures RunsAsStreamed(SourceOf(around, m).events, s, setup.decode, x.call)
  {
    var events := SourceOf(around, m).events;
    var content, calls := m.reading.content, m.reading.calls;
    var j: nat :| j < |calls| && Screen(setup.env, calls[j]) == Live(x.call);
    ScreenIs(setup.env, calls[j]);
    var at := CallsAreBlocks(content);
    assert CallAt(content)(j, at[j]);
    var starts := MessageCarries(events, m.idxs, setup.decode, content);
    s := starts[at[j]];
    assert BlockOfStart(events, s, content[at[j]], setup.decode);
  }

  /** Main result: whatever a run executes has the id, the name and the arguments that the
      stream of one of its model calls spelled out, less the description; no call whose
      arguments do not decode is executed. */
  lemma ExecutedAsStreamed(setup: Setup, base: seq<Message>, arounds: nat -> Around, turns: seq<Loop.Turn>,
                           made: seq<Made>, states: seq<Loop.State>, n: nat, k: nat) returns (m: nat, s: nat)
    requires RunStates(setup, base, turns, states) && n <= |turns| && k < |states[n].executed|
    requires Composed(setup, base, arounds, turns, made, states[..|turns|])
    ensures m < n && made[m].tries != [] && SourceOf(arounds(m), made[m]).Streams?
    ensures RunsAsStreamed(SourceOf(arounds(m), made[m]).events, s, setup.decode, states[n].executed[k].call)
  {
    m := ExecutedWasAnnounced(setup, base, arounds, turns, made, states, n, k);
    s := StreamedAs(setup, arounds(m), made[m], states[n].executed[k]);
  }

  // ---- From the stream to the turn ---------------------------------------------------------------

  /** Main result: a turn has a result exactly when the last stream of its call was read to its
      end, and then it is that stream's: its blocks, its calls, its last stop reason and the
      merged usage. The books are those the last view was sent with. */
  lemma TurnIsStream(setup: Setup, around: Around, view: seq<Message>, books: Books, t: Loop.Turn, m: Made)
    requires CallMade(setup, around, view, books, t, m)
    ensures m.tries != [] && t.booksAfter == m.tries[|m.tries| - 1].sent.books
    ensures t.attempt.Some? <==> m.tries[|m.tries| - 1].reported.Success?
    ensures t.attempt.Some? ==>
              SourceOf(around, m).Streams? &&
              var events := SourceOf(around, m).events;
              && OpenInOrder(events, m.idxs)
              && t.attempt.value.content == ClosedBlocks(events, |events|, setup.decode) +
                                            OpenBlocks(events, m.idxs, setup.decode)
              && t.attempt.value.calls == CallsOf(t.attempt.value.content)
              && t.attempt.value.stop == EndAfter(events, |events|).stop
              && t.attempt.value.usage == EndAfter(events, |events|).usage
  {
  }

  /** The first view sent is the one the loop built, with its books, when nothing compresses,
      the breaker is tripped, or the summarizer failed; the cache is then as it was. Otherwise
      it is what compression made of it. */
  lemma FirstIs(setup: Setup, around: Around, view: seq<Message>, books: Books, t: Loop.Turn, m: Made)
    requires CallMade(setup, around, view, books, t, m)
    ensures var first := m.tries[0].sent;
            && first.books.viewDropped == books.viewDropped
            && (if setup.compress.window <= 0 || m.tripped then first == Outgoing(view, books)
                else
                  var s := CompressStep(view, PolicyOf(setup.compress, around.overhead), around.summarize,
                                        CacheOf(books));
                  && first.books.cache == Some(s.cache)
                  && (s.reply.SummarizeFailed? ==> first.view == view && s.cache == CacheOf(books))
                  && (s.reply.Sent? ==> first.view == s.reply.view))
  {
    if setup.compress.window > 0 {
      PlanFits(view, PolicyOf(setup.compress, around.overhead), CacheOf(books));
    }
  }
}
