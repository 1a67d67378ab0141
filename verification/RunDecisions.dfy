/** Where a turn of the run leads and what it records, told by what the turn brought alone
    (internal/agent/loop.go:519-706, 1330-1416, internal/agent/overflow.go:18-32). */
module RunDecisions {
  import opened Provider
  import opened Rounds
  import opened Middleware
  import opened StreamAssembly
  import opened ToolGate
  import opened GateProperties
  import opened Selections
  import opened AgentLoop
  import opened RunResults
  import RunTrace

  // ---- What a turn brought -----------------------------------------------------------------

  ghost predicate SaysSomething(content: seq<Block>) {
    exists k :: 0 <= k < |content| && Filled(content[k])
  }

  lemma SaysIs(content: seq<Block>)
    ensures DropEmptyBlocks(content) != [] <==> SaysSomething(content)
  {
    var at := EmptyBlocksGo(content);
    if k :| 0 <= k < |content| && Filled(content[k]) {
      assert FilledAt(content)(k) && k in at;
    }
    if at != [] {
      assert at[0] in at && FilledAt(content)(at[0]);
    }
  }

  /** The model was asked and answered. */
  predicate Answered(t: Turn) {
    !t.cancelledAtStart && !t.beforeAborts && t.attempt.Some?
  }

  /** The model answered with nothing at all. */
  ghost predicate Blank(t: Turn) {
    Answered(t) && t.attempt.value.calls == [] && !SaysSomething(t.attempt.value.content)
  }

  /** The answer was cut short by the context, not by the limit on the output. */
  ghost predicate Squeezed(cfg: Config, t: Turn) {
    && Answered(t) && !Blank(t) && t.attempt.value.calls == [] && t.attempt.value.stop == StopMaxTokens
    && cfg.maxTokens > 0 && t.attempt.value.usage.Some? && t.attempt.value.usage.value.output < cfg.maxTokens
  }

  /** The answer is one to act on. */
  ghost predicate Ordinary(cfg: Config, t: Turn) {
    Answered(t) && !Blank(t) && !Squeezed(cfg, t)
  }

  /** The model stopped by itself, or used up the output it was allowed. */
  predicate Finished(cfg: Config, r: ModelResult) {
    r.stop == StopEndTurn ||
    (r.stop == StopMaxTokens && cfg.maxTokens > 0 && r.usage.Some? && r.usage.value.output >= cfg.maxTokens)
  }

  predicate Uncut(r: ModelResult) { r.stop == StopEndTurn || r.stop == StopToolUse }

  ghost predicate SomeWait(env: Env, calls: seq<Call>) {
    exists k, kind :: 0 <= k < |calls| && Waits(env, calls[k], kind)
  }

  lemma WaitIs(env: Env, calls: seq<Call>)
    ensures GatedUpTo(env, calls, |calls|) != [] <==> SomeWait(env, calls)
  {
    NothingGated(env, calls, |calls|);
    forall k | 0 <= k < |calls| ensures GateKind(env, calls[k]).None? <==> forall kind :: !Waits(env, calls[k], kind) {
      GateKindIs(env, calls[k]);
    }
  }

  /** A round can be dropped whenever there is more than one. */
  lemma DropsUnlessOne(view: seq<Message>)
    ensures DropForOverflow(view).Refused? <==> |RoundsFrom(view, 0)| <= 1
  {
  }

  // ---- Where it leads --------------------------------------------------------------------------

  /** The batch of the turn, if it is acted on. */
  ghost predicate Batch(cfg: Config, t: Turn) {
    Ordinary(cfg, t) && !t.afterAborts && t.attempt.value.calls != []
  }

  /** The answer without calls, if it is acted on. */
  ghost predicate Last(cfg: Config, t: Turn) {
    Ordinary(cfg, t) && !t.afterAborts && t.attempt.value.calls == []
  }

  lemma Sorted(cfg: Config, env: Env, view: seq<Message>, t: Turn)
    requires Answered(t)
    ensures var r := t.attempt.value;
            && (Blank(t) <==> Empty(r)) && (Squeezed(cfg, t) <==> !Empty(r) && ContextPressure(cfg, r))
            && (Complete(cfg, r.stop, r.usage) <==> Finished(cfg, r)) && (Dispatchable(r.stop) <==> Uncut(r))
            && (GatedUpTo(env, r.calls, |r.calls|) != [] <==> SomeWait(env, r.calls))
  {
    SaysIs(t.attempt.value.content);
    WaitIs(env, t.attempt.value.calls);
  }

  /** Main result: the run goes on exactly after a first truncation by the context that leaves
      a round to drop, after a batch that ran, and after one that was cut and is to be issued
      again. */
  lemma GoesOnExactly(cfg: Config, env: Env, recovered: bool, view: seq<Message>, t: Turn)
    ensures TurnEffect(cfg, env, recovered, view, t).next == Continue <==>
            || (Squeezed(cfg, t) && !recovered && |RoundsFrom(view, 0)| > 1)
            || (Batch(cfg, t) && !t.cancelledBeforeExit &&
                (!Uncut(t.attempt.value) || !SomeWait(env, t.attempt.value.calls)))
  {
    if Answered(t) {
      Sorted(cfg, env, view, t);
      DropsUnlessOne(view);
    }
  }

  /** Main result: the run completes exactly with an answer without calls that is finished, and
      waits for the client exactly when some call of a whole batch does and every interrupt got
      through. */
  lemma SucceedsExactly(cfg: Config, env: Env, recovered: bool, view: seq<Message>, t: Turn)
    ensures var next := TurnEffect(cfg, env, recovered, view, t).next;
            next.Exit? && next.outcome.Completed? <==>
            Last(cfg, t) && !t.cancelledBeforeExit && Finished(cfg, t.attempt.value)
    ensures var next := TurnEffect(cfg, env, recovered, view, t).next;
            next.Exit? && next.outcome.Completed? ==>
              next.outcome == Completed(t.attempt.value.stop, t.attempt.value.usage)
    ensures var next := TurnEffect(cfg, env, recovered, view, t).next;
            next.Exit? && next.outcome.AwaitingClient? <==>
            Batch(cfg, t) && !t.cancelledBeforeExit && Uncut(t.attempt.value) && SomeWait(env, t.attempt.value.calls) &&
            InterruptsDelivered(t, GatedUpTo(env, t.attempt.value.calls, |t.attempt.value.calls|))
  {
    if Answered(t) {
      Sorted(cfg, env, view, t);
    }
  }

  /** The run is cancelled exactly when the cancellation was seen between steps, in the model
      call, or after an answer that did not fail by itself. */
  lemma CancelsExactly(cfg: Config, env: Env, recovered: bool, view: seq<Message>, t: Turn)
    ensures var next := TurnEffect(cfg, env, recovered, view, t).next;
            && (next == Exit(CancelledBetweenSteps) <==> t.cancelledAtStart)
            && (next == Exit(Cancelled) <==>
                || (!t.cancelledAtStart && !t.beforeAborts && t.attempt.None? && t.cancelledInAttempt)
                || (t.cancelledBeforeExit && (Batch(cfg, t) || (Last(cfg, t) && Finished(cfg, t.attempt.value)))))
  {
    if Answered(t) {
      Sorted(cfg, env, view, t);
    }
  }

  /** What made a turn fail. */
  ghost predicate Causes(cfg: Config, env: Env, recovered: bool, view: seq<Message>, t: Turn, cause: Cause) {
    match cause
    case HookAbort => (!t.cancelledAtStart && t.beforeAborts) || (Ordinary(cfg, t) && t.afterAborts)
    case AttemptFailed => !t.cancelledAtStart && !t.beforeAborts && t.attempt.None? && !t.cancelledInAttempt
    case EmptyResponse => Blank(t)
    case TruncationDiscarded => Squeezed(cfg, t) && (recovered || |RoundsFrom(view, 0)| <= 1)
    case Truncated => Last(cfg, t) && t.attempt.value.stop == StopMaxTokens && !Finished(cfg, t.attempt.value)
    case NoFinishReason => Last(cfg, t) && t.attempt.value.stop == StopUnknown
    case EndedEarly =>
      Last(cfg, t) && (t.attempt.value.stop == StopToolUse || t.attempt.value.stop.StopOther?)
    case InterruptLost =>
      Batch(cfg, t) && !t.cancelledBeforeExit && Uncut(t.attempt.value) && SomeWait(env, t.attempt.value.calls) &&
      !InterruptsDelivered(t, GatedUpTo(env, t.attempt.value.calls, |t.attempt.value.calls|))
    case MaxIterations => false
  }

  /** Main result: every failure has its cause, and each cause makes the turn fail. */
  lemma FailsExactly(cfg: Config, env: Env, recovered: bool, view: seq<Message>, t: Turn, cause: Cause)
    ensures var next := TurnEffect(cfg, env, recovered, view, t).next;
            next.Exit? && next.outcome.Failed? && next.outcome.cause == cause <==>
            Causes(cfg, env, recovered, view, t, cause)
  {
    if Answered(t) {
      Sorted(cfg, env, view, t);
      DropsUnlessOne(view);
    }
  }

  // ---- What it records ---------------------------------------------------------------------------

  /** The model's message as the record keeps it: the blocks that say something, in order. */
  ghost predicate KeepsMessage(m: Message, content: seq<Block>) {
    m.role == RoleAssistant &&
    exists at :: Positions(at, |content|, FilledAt(content)) && Matched(at, |m.content|, SameBlock(content, m.content))
  }

  /** Main result: a turn records nothing unless the model's answer is one to act on; then it
      records that message first, and right behind it the answers to its calls, unless there
      are none or they are left to the client. */
  lemma RecordsExactly(cfg: Config, env: Env, recovered: bool, view: seq<Message>, t: Turn)
    ensures var e := TurnEffect(cfg, env, recovered, view, t);
            if !Ordinary(cfg, t) then e.messages == [] && e.executed == []
            else
              var r := t.attempt.value;
              && 1 <= |e.messages| <= 2 && KeepsMessage(e.messages[0], r.content)
              && (|e.messages| == 1 <==> r.calls == [] || (e.next.Exit? && e.next.outcome.AwaitingClient?))
              && (|e.messages| == 2 ==> AnswersBatch(env, t, r, e.messages[1]))
  {
    if Answered(t) {
      Sorted(cfg, env, view, t);
      if Ordinary(cfg, t) {
        MessageRecords(cfg, env, t, t.attempt.value);
      }
    }
  }

  lemma MessageRecords(cfg: Config, env: Env, t: Turn, r: ModelResult)
    ensures var e := MessageEffect(cfg, env, t, r);
            && 1 <= |e.messages| <= 2 && KeepsMessage(e.messages[0], r.content)
            && (|e.messages| == 1 <==> r.calls == [] || (e.next.Exit? && e.next.outcome.AwaitingClient?))
            && (|e.messages| == 2 ==> AnswersBatch(env, t, r, e.messages[1]))
  {
    var at := EmptyBlocksGo(r.content);
    assert KeepsMessage(Message(RoleAssistant, DropEmptyBlocks(r.content)), r.content);
    BatchAnswered(env, t, r);
  }

  /** A step that another one follows ends with the usage of its turn and says why: its calls
      were run, it was cut by the limit, or its answer was not a whole one. */
  lemma StepTold(cfg: Config, env: Env, base: seq<Message>, s0: State, t: Turn, s: State, first: bool)
    requires Passed(cfg, env, base, s0, t, s, Continue, first)
    ensures s0.trace <= s.trace && s.trace != [] && t.attempt.Some?
    ensures var f := s.trace[|s.trace| - 1];
            && f.StepFinish? && f.continued && f.usage == t.attempt.value.usage
            && (f.reason == "length" <==> t.attempt.value.stop == StopMaxTokens)
            && (f.reason == "tool-calls" <==> Uncut(t.attempt.value))
            && (f.reason == "error" <==> t.attempt.value.stop == StopUnknown || t.attempt.value.stop.StopOther?)
  {
    assert |"length"| == 6 && |"tool-calls"| == 10 && |"error"| == 5;
  }

  // ---- What it sees ------------------------------------------------------------------------------

  /** How many messages at the front of the conversation the view leaves out. */
  function LeftOut(base: seq<Message>, s: State): nat {
    if 0 < s.books.viewDropped < |base| + |s.produced| then s.books.viewDropped else 0
  }

  /** The view of an iteration is the conversation without the front that was dropped, and the
      injected messages of this iteration behind it. */
  lemma ViewShows(base: seq<Message>, s: State, t: Turn)
    ensures var view, n, d := ViewOf(base, s, t), |base| + |s.produced|, LeftOut(base, s);
            && |view| == n - d + |t.injected|
            && (forall k :: d <= k < |base| ==> view[k - d] == base[k])
            && (forall k :: 0 <= k < |s.produced| && |base| + k >= d ==> view[|base| + k - d] == s.produced[k])
            && (forall k :: 0 <= k < |t.injected| ==> view[n - d + k] == t.injected[k])
  {
  }
}
