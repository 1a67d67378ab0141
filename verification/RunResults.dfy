/** What the record, the client and the accounts of a run hold
    (internal/agent/loop.go:457-706, 1363-1385, 1465-1549). */
module RunResults {
  import opened Provider
  import opened Selections
  import opened StreamAssembly
  import opened ToolGate
  import opened GateProperties
  import opened AgentLoop
  import RunTrace

  // ---- The message of a turn ---------------------------------------------------------------

  /** A block that says something. */
  predicate Filled(b: Block) {
    match b
    case Text(text, cachePoint) => text != "" || cachePoint
    case Thinking(thinking, signature, cachePoint) => thinking != "" || signature != "" || cachePoint
    case _ => true
  }

  ghost function FilledAt(content: seq<Block>): nat -> bool {
    (k: nat) => k < |content| && Filled(content[k])
  }

  ghost function SameBlock(content: seq<Block>, kept: seq<Block>): (nat, nat) -> bool {
    (j: nat, k: nat) => j < |kept| && k < |content| && kept[j] == content[k]
  }

  /** Main result: the recorded message has exactly the blocks that say something, in order. */
  lemma {:induction false} EmptyBlocksGo(content: seq<Block>) returns (at: seq<nat>)
    ensures Positions(at, |content|, FilledAt(content))
    ensures Matched(at, |DropEmptyBlocks(content)|, SameBlock(content, DropEmptyBlocks(content)))
  {
    if content == [] {
      at := [];
    } else {
      var front, n := content[..|content| - 1], |content| - 1;
      at := EmptyBlocksGo(front);
      var before, after := DropEmptyBlocks(front), DropEmptyBlocks(content);
      at := NextSelected(at, n, FilledAt(front), FilledAt(content), |before|, SameBlock(front, before),
                         SameBlock(content, after));
    }
  }

  // ---- The answers to a batch ------------------------------------------------------------------

  /** The batch is executed: the turn was not cut short, and no call of it waits for the
      client. */
  ghost predicate BatchRuns(env: Env, t: Turn, r: ModelResult) {
    && !t.afterAborts && !t.cancelledBeforeExit && (r.stop == StopEndTurn || r.stop == StopToolUse)
    && forall k, kind :: 0 <= k < |r.calls| ==> !Waits(env, r.calls[k], kind)
  }

  lemma RunsIs(env: Env, t: Turn, r: ModelResult)
    ensures Runs(env, t, r) <==> BatchRuns(env, t, r)
  {
    NothingGated(env, r.calls, |r.calls|);
    forall k | 0 <= k < |r.calls|
      ensures GateKind(env, r.calls[k]).None? <==> forall kind :: !Waits(env, r.calls[k], kind) {
      GateKindIs(env, r.calls[k]);
    }
  }

  /** The answer to one call: what its execution gave, if it ran; an error otherwise. */
  ghost predicate Answer(env: Env, c: Call, ran: bool, b: Block) {
    if ran && Permitted(env, c) then exists live :: RunsAs(c, live) && RunTrace.Shows(b, c.id, env.execute(live))
    else
      b.ToolResult? && b.resultId == c.id && b.isError && b.toolContent != "" &&
      (!ran ==> "not executed: " <= b.toolContent)
  }

  ghost predicate AnswersBatch(env: Env, t: Turn, r: ModelResult, m: Message) {
    m.role == RoleUser && |m.content| == |r.calls| &&
    forall k :: 0 <= k < |r.calls| ==>
      Answer(env, r.calls[k], BatchRuns(env, t, r), m.content[k])
  }

  lemma OneAnswer(env: Env, t: Turn, r: ModelResult, k: nat)
    requires k < |r.calls|
    ensures var m := ToolResultMessage(r.calls, BatchResults(env, t, r));
            k < |m.content| && Answer(env, r.calls[k], BatchRuns(env, t, r), m.content[k])
  {
    RunsIs(env, t, r);
    ResultIs(env, r.calls[k]);
    var b := ToolResultMessage(r.calls, BatchResults(env, t, r)).content[k];
    if BatchRuns(env, t, r) && Permitted(env, r.calls[k]) {
      var live :| RunsAs(r.calls[k], live) && ResultOf(env, r.calls[k]) == env.execute(live);
      assert RunTrace.Shows(b, r.calls[k].id, env.execute(live));
    } else if !BatchRuns(env, t, r) {
      assert |"not executed: "| == 14;
    }
  }

  /** Main result: the calls of a turn are left to the client, or answered one by one in the
      order they came: a call that ran with its own result, any other with an error. */
  lemma BatchAnswered(env: Env, t: Turn, r: ModelResult)
    ensures Answers(env, t, r) == [] ||
            (|Answers(env, t, r)| == 1 && AnswersBatch(env, t, r, Answers(env, t, r)[0]))
    ensures Answers(env, t, r) == [] && r.calls != [] ==>
              !t.afterAborts && !t.cancelledBeforeExit &&
              exists k, kind :: 0 <= k < |r.calls| && Waits(env, r.calls[k], kind)
  {
    if Answers(env, t, r) != [] {
      forall k | 0 <= k < |r.calls|
        ensures Answer(env, r.calls[k], BatchRuns(env, t, r), Answers(env, t, r)[0].content[k]) {
        OneAnswer(env, t, r, k);
      }
    } else if r.calls != [] {
      RunsIs(env, t, r);
    }
  }

  /** Why a batch that could not run was not run. */
  predicate WhyNot(t: Turn, r: ModelResult, why: string) {
    if t.afterAborts then why == "the run was aborted by middleware"
    else if t.cancelledBeforeExit then why == "the run was cancelled"
    else
      match r.stop
      case StopMaxTokens => why == "the response hit the max_tokens limit"
      case StopUnknown => why == "no finish reason was reported"
      case StopOther(_) => why == "the response ended early"
      case _ => why == "the run ended abnormally"
  }

  /** Every call of a batch that did not run is told the same, and why. */
  lemma RefusalsTold(env: Env, t: Turn, r: ModelResult) returns (why: string)
    requires !BatchRuns(env, t, r) && Answers(env, t, r) != []
    ensures WhyNot(t, r, why)
    ensures var m := Answers(env, t, r)[0];
            |m.content| == |r.calls| &&
            forall k :: 0 <= k < |r.calls| ==> m.content[k] == ToolResult(r.calls[k].id, "not executed: " + why, true)
  {
    why := Refusal(t, r);
    RunsIs(env, t, r);
    assert |"not executed: "| == 14;
  }

  ghost function RanAt(calls: seq<Call>, stop: StopReason, executed: seq<Execution>): (nat, nat) -> bool {
    (j: nat, k: nat) => j < |executed| && k < |calls| && RunsAs(calls[k], executed[j].call) && executed[j].stop == stop
  }

  /** Main result: what a turn executes are exactly the permitted calls of a batch that runs. */
  lemma TurnExecutes(env: Env, t: Turn, r: ModelResult) returns (at: seq<nat>)
    ensures if BatchRuns(env, t, r) then
              Positions(at, |r.calls|, PermittedAt(env, r.calls)) &&
              Matched(at, |AgentLoop.Executed(env, t, r)|, RanAt(r.calls, r.stop, AgentLoop.Executed(env, t, r)))
            else AgentLoop.Executed(env, t, r) == []
  {
    RunsIs(env, t, r);
    at := ExecutedExactly(env, r.calls, |r.calls|);
    if BatchRuns(env, t, r) {
      var executed := ToolGate.Executed(env, r.calls, |r.calls|);
      forall j: nat | j < |executed| ensures RanAt(r.calls, r.stop, AgentLoop.Executed(env, t, r))(j, at[j]) {
        assert RunAt(r.calls, executed)(j, at[j]);
      }
    }
  }

  // ---- Accounts ------------------------------------------------------------------------------------

  /** What the provider charged for a turn: nothing, when no response came. */
  function ChargeOf(t: Turn): Usage {
    if t.cancelledAtStart || t.beforeAborts || t.attempt.None? || t.attempt.value.usage.None? then Usage(0, 0, 0, 0, 0)
    else t.attempt.value.usage.value
  }

  function Charged(turns: nat -> Turn, n: nat, count: Usage -> nat): nat {
    if n == 0 then 0 else Charged(turns, n - 1, count) + count(ChargeOf(turns(n - 1)))
  }

  ghost predicate Accounts(s: State, turns: nat -> Turn, n: nat) {
    s.spent.input == Charged(turns, n, RunTrace.InputOf) && s.spent.output == Charged(turns, n, RunTrace.OutputOf) &&
    s.spent.cacheRead == Charged(turns, n, RunTrace.ReadOf) && s.spent.cacheWrite == Charged(turns, n, RunTrace.WriteOf)
  }

  lemma TurnCharges(cfg: Config, env: Env, recovered: bool, view: seq<Message>, t: Turn, before: RunTrace.Spent)
    ensures var after := before.Plus(TurnEffect(cfg, env, recovered, view, t).usage);
            after.input == before.input + ChargeOf(t).input && after.output == before.output + ChargeOf(t).output &&
            after.cacheRead == before.cacheRead + ChargeOf(t).cacheRead &&
            after.cacheWrite == before.cacheWrite + ChargeOf(t).cacheWrite
  {
  }

  lemma PassedAccounts(cfg: Config, env: Env, base: seq<Message>, turns: nat -> Turn, s0: State, n: nat, s: State,
                       next: Next)
    requires Passed(cfg, env, base, s0, turns(n), s, next, n == 0) && Accounts(s0, turns, n)
    ensures Accounts(s, turns, n + 1)
    ensures Starts(s) == Starts(s0) + if n == 0 || turns(n).cancelledAtStart then 0 else 1
  {
    TurnCharges(cfg, env, s0.recovered, ViewOf(base, s0, turns(n)), turns(n), s0.spent);
  }

  lemma NotCancelled(cfg: Config, env: Env, base: seq<Message>, s0: State, t: Turn, s: State, first: bool)
    requires Passed(cfg, env, base, s0, t, s, Continue, first)
    ensures !t.cancelledAtStart
  {
  }

  lemma {:induction false} CourseAccounts(cfg: Config, env: Env, base: seq<Message>, turns: nat -> Turn,
                                          earlier: seq<State>, s: State)
    requires OnCourse(cfg, env, base, turns, earlier, s)
    ensures Accounts(s, turns, |earlier|) && Starts(s) == (if earlier == [] then 0 else |earlier| - 1)
    ensures earlier != [] ==> !turns(|earlier| - 1).cancelledAtStart
    decreases |earlier|
  {
    if earlier != [] {
      var n := |earlier| - 1;
      CourseAccounts(cfg, env, base, turns, earlier[..n], earlier[n]);
      PassedAccounts(cfg, env, base, turns, earlier[n], n, s, Continue);
      NotCancelled(cfg, env, base, earlier[n], turns(n), s, n == 0);
    }
  }

  /** Main result: the usage of a run is the sum of what its turns were charged, whatever
      became of their responses, and one step was opened for every turn after the first that
      was not cancelled before it began. */
  lemma RunAccounts(cfg: Config, env: Env, base: seq<Message>, turns: nat -> Turn, earlier: seq<State>, last: State,
                    outcome: Outcome)
    requires Course(cfg, env, base, turns, earlier, last, outcome) && earlier != []
    ensures Accounts(last, turns, |earlier|)
    ensures RunTrace.HowMany(last.trace, RunTrace.OpensStep) ==
            |earlier| - if |earlier| > 1 && turns(|earlier| - 1).cancelledAtStart then 2 else 1
  {
    RunTrace.CountsAre(last.trace);
    if outcome == OUT_OF_TURNS {
      CourseAccounts(cfg, env, base, turns, earlier, last);
    } else {
      ExitAccounts(cfg, env, base, turns, earlier, last, outcome, |earlier| - 1);
    }
  }

  lemma ExitAccounts(cfg: Config, env: Env, base: seq<Message>, turns: nat -> Turn, earlier: seq<State>, last: State,
                     outcome: Outcome, n: nat)
    requires |earlier| == n + 1 && Arrived(cfg, env, base, turns, earlier, last, Exit(outcome))
    ensures Accounts(last, turns, n + 1) && Starts(last) == if n > 0 && turns(n).cancelledAtStart then n - 1 else n
  {
    CourseAccounts(cfg, env, base, turns, earlier[..n], earlier[n]);
    PassedAccounts(cfg, env, base, turns, earlier[n], n, last, Exit(outcome));
  }

  // ---- How a run is reported -------------------------------------------------------------------------

  /** Main result: the last frame tells how the run ended, and the last step why. */
  lemma OutcomeTold(cfg: Config, env: Env, s: State, o: Outcome)
    requires Ended(cfg, env, s, o)
    ensures var f := s.trace[|s.trace| - 1];
            (f.DoneFrame? <==> o.Completed? || o.AwaitingClient?) && (f.ErrorFrame? <==> o.Failed?) &&
            (f.CancelledFrame? <==> o.Cancelled? || o.CancelledBetweenSteps?)
    ensures !o.CancelledBetweenSteps? ==>
              |s.trace| >= 3 && s.trace[|s.trace| - 3].StepFinish? &&
              var reason := s.trace[|s.trace| - 3].reason;
              (reason == "stop" <==> o.Completed?) && (reason == "tool-calls" <==> o.AwaitingClient?) &&
              (reason == "length" <==> o.Failed? && o.cause == Truncated) &&
              (reason == "error" <==> o.Failed? && o.cause != Truncated) && (reason == "other" <==> o.Cancelled?)
  {
    assert |"stop"| == 4 && |"tool-calls"| == 10 && |"length"| == 6 && "error"[0] != "other"[0];
  }

  /** A run that completes ends with an answer: the model stopped by itself, or used up the
      output it was allowed. */
  lemma CompletedMeans(cfg: Config, env: Env, s: State, o: Outcome)
    requires Ended(cfg, env, s, o) && o.Completed?
    ensures s.produced != [] && IsAssistant(s.produced[|s.produced| - 1]) &&
            UseIds(s.produced[|s.produced| - 1].content) == []
    ensures o.stop == StopEndTurn ||
            (o.stop == StopMaxTokens && cfg.maxTokens > 0 && o.usage.Some? && o.usage.value.output >= cfg.maxTokens)
  {
  }

  /** A response that hit the limit is either retried as context pressure or an answer that
      used the limit up; without a limit or a report it is neither. */
  lemma LengthMeans(usage: Option<Usage>, cap: int)
    ensures IsRecoverableLength(usage, cap) <==> cap > 0 && usage.Some? && usage.value.output < cap
    ensures GenuineLength(usage, cap) <==> cap > 0 && usage.Some? && !IsRecoverableLength(usage, cap)
  {
  }
}
