/** The think-tool-think loop (internal/agent/loop.go:388-843, 1363-1549). Provider, hooks,
    cancellation and client are inputs; the attempted frames are recorded in a trace. */
module AgentLoop {
  import opened Provider
  import opened Pairing
  import opened Rounds
  import opened Compress
  import opened Middleware
  import opened StreamAssembly
  import opened ToolGate
  import RunTrace

  // ---- Inputs ------------------------------------------------------------------------------

  datatype Config = Config(maxTokens: int, maxIterations: nat)

  datatype ModelResult = ModelResult(content: seq<Block>, calls: seq<Call>, stop: StopReason, usage: Option<Usage>)

  /** Everything the environment decides in one iteration. `attempt` is None when the model
      call failed; the calls of a result are the tool_use blocks of its message. */
  datatype Turn = Turn(
    cancelledAtStart: bool,
    beforeAborts: bool,
    injected: seq<Message>,
    attempt: Option<ModelResult>,
    booksAfter: Books,
    cancelledInAttempt: bool,
    afterAborts: bool,
    cancelledBeforeExit: bool,
    lostInterrupt: Option<nat>)

  ghost predicate Assembled(t: Turn) {
    t.attempt.Some? ==> t.attempt.value.calls == CallsOf(t.attempt.value.content)
  }

  // ---- State and outcome ---------------------------------------------------------------------

  /** A tool execution, with the stop reason of the turn that asked for it. */
  datatype Execution = Execution(call: Call, stop: StopReason)

  datatype State = State(
    produced: seq<Message>,
    spent: RunTrace.Spent,
    books: Books,
    recovered: bool,
    trace: seq<RunTrace.Frame>,
    executed: seq<Execution>)

  datatype Cause =
    | HookAbort | AttemptFailed | EmptyResponse | TruncationDiscarded | Truncated
    | NoFinishReason | EndedEarly | InterruptLost | MaxIterations

  datatype Outcome =
    | Completed(stop: StopReason, usage: Option<Usage>)
    | AwaitingClient(gated: seq<Interaction>)
    | CancelledBetweenSteps
    | Cancelled
    | Failed(cause: Cause, usage: Option<Usage>)

  datatype Next = Continue | Exit(outcome: Outcome)

  // ---- Small pieces of the source ------------------------------------------------------------

  /** A max_tokens stop below the intended cap is context pressure (overflow.go:18-32). */
  predicate IsRecoverableLength(usage: Option<Usage>, cap: int) {
    cap > 0 && usage.Some? && usage.value.output < cap
  }

  predicate GenuineLength(usage: Option<Usage>, cap: int) {
    cap > 0 && usage.Some? && usage.value.output >= cap
  }

  /** A turn without calls that may be passed off as the complete answer. */
  predicate Complete(cfg: Config, stop: StopReason, usage: Option<Usage>) {
    stop == StopEndTurn || (stop == StopMaxTokens && GenuineLength(usage, cfg.maxTokens))
  }

  /** The stop reasons on which a batch of calls may be dispatched. */
  predicate Dispatchable(stop: StopReason) {
    stop == StopEndTurn || stop == StopToolUse
  }

  predicate CarriesNothing(b: Block) {
    match b
    case Text(text, cachePoint) => text == "" && !cachePoint
    case Thinking(thinking, signature, cachePoint) => thinking == "" && signature == "" && !cachePoint
    case _ => false
  }

  function DropEmptyBlocks(content: seq<Block>): seq<Block> {
    if content == [] then [] else
    var rest, b := DropEmptyBlocks(content[..|content| - 1]), content[|content| - 1];
    if CarriesNothing(b) then rest else rest + [b]
  }

  const NO_OUTPUT := "(no output)"

  /** The message that carries a batch's results back, one block per call. */
  function ToolResultMessage(calls: seq<Call>, results: seq<CallResult>): Message
    requires |calls| == |results|
  {
    Message(RoleUser, seq(|calls|, k requires 0 <= k < |calls| =>
      ToolResult(calls[k].id, if results[k].content == "" then NO_OUTPUT else results[k].content, results[k].isError)))
  }

  /** The message tells the results of a batch, call by call. */
  predicate Tells(m: Message, calls: seq<Call>, results: seq<CallResult>) {
    m.role == RoleUser && |m.content| == |calls| == |results| &&
    forall k :: 0 <= k < |calls| ==> RunTrace.Shows(m.content[k], calls[k].id, results[k])
  }

  /** The frames streamed for the results of a batch. */
  predicate Streamed(frames: seq<RunTrace.Frame>, calls: seq<Call>, results: seq<CallResult>) {
    |frames| == |calls| == |results| &&
    forall k :: 0 <= k < |calls| ==>
      frames[k] == RunTrace.ToolResultFrame(calls[k].id, calls[k].name, results[k].content, results[k].isError)
  }

  /** The same error for every call of a batch that is not executed. */
  function NotExecuted(calls: seq<Call>, why: string): seq<CallResult> {
    seq(|calls|, k requires 0 <= k < |calls| => CallResult("not executed: " + why, true))
  }

  // ---- Emitting ---------------------------------------------------------------------------------

  function Emit(s: State, f: RunTrace.Frame): (r: State)
    ensures r == s.(trace := s.trace + [f])
    ensures RunTrace.TallyOf(r.trace) == RunTrace.Feed(RunTrace.TallyOf(s.trace), f)
  {
    assert (s.trace + [f])[..|s.trace|] == s.trace;
    s.(trace := s.trace + [f])
  }

  function FinishStep(s: State, reason: string, usage: Option<Usage>, continued: bool): State {
    Emit(s, RunTrace.StepFinish(reason, usage, continued))
  }

  function FailRun(s: State, usage: Option<Usage>, reason: string): (r: State)
    ensures r == s.(trace := r.trace) && Keeps(r, s)
  {
    Emit(Emit(FinishStep(s, reason, usage, false), RunTrace.AfterRunPass), RunTrace.ErrorFrame)
  }

  function CancelRun(s: State, usage: Option<Usage>): (r: State)
    ensures r == s.(trace := r.trace) && Keeps(r, s)
  {
    Emit(Emit(FinishStep(s, "other", usage, false), RunTrace.AfterRunPass), RunTrace.CancelledFrame)
  }

  function SucceedRun(s: State, usage: Option<Usage>, reason: string): (r: State)
    ensures r == s.(trace := r.trace) && Keeps(r, s)
    ensures r.trace == s.trace + [RunTrace.StepFinish(reason, usage, false), RunTrace.AfterRunPass, RunTrace.DoneFrame]
  {
    Emit(Emit(FinishStep(s, reason, usage, false), RunTrace.AfterRunPass), RunTrace.DoneFrame)
  }

  // ---- Invariants ---------------------------------------------------------------------------------

  /** A call is answered by the very next message, id for id; other messages only answer. */
  predicate AnsweredAt(msgs: seq<Message>, i: nat)
    requires i < |msgs|
  {
    if IsAssistant(msgs[i]) then
      UseIds(msgs[i].content) != [] ==> i + 1 < |msgs| && !IsAssistant(msgs[i + 1])
    else
      i > 0 && IsAssistant(msgs[i - 1]) && ResultIds(msgs[i].content) == UseIds(msgs[i - 1].content) != []
  }

  predicate AnsweredInOrder(msgs: seq<Message>) {
    forall i :: 0 <= i < |msgs| ==> AnsweredAt(msgs, i)
  }

  /** Only permitted calls ran, on turns that were not cut short. */
  ghost predicate Lawful(env: Env, executed: seq<Execution>) {
    forall k :: 0 <= k < |executed| ==> Executable(env, executed[k].call) && Dispatchable(executed[k].stop)
  }

  /** The durable record is what was produced, nothing ended yet, and one recovery at most
      was announced. */
  ghost predicate Recorded(s: State) {
    var t := RunTrace.TallyOf(s.trace);
    t.messages == s.produced && t.bracketed && t.passes == 0 && t.terminals == 0 && t.told && t.streamed == [] &&
    t.recoveries == (if s.recovered then 1 else 0)
  }

  /** Usage accumulated so far is what frames carry, plus what is about to be booked. */
  ghost predicate Booked(s: State, due: Option<Usage>) {
    RunTrace.TallyOf(s.trace).booked.Plus(due) == s.spent
  }

  /** Between iterations. */
  ghost predicate Inv(env: Env, s: State) {
    AnsweredInOrder(s.produced) && Recorded(s) && Booked(s, None) &&
    !RunTrace.TallyOf(s.trace).stepOpen && Lawful(env, s.executed)
  }

  function StepReason(o: Outcome): string {
    match o
    case Completed(_, _) => "stop"
    case AwaitingClient(_) => "tool-calls"
    case Failed(Truncated, _) => "length"
    case Failed(_, _) => "error"
    case _ => "other"
  }

  function LastFrame(o: Outcome): RunTrace.Frame {
    match o
    case Completed(_, _) => RunTrace.DoneFrame
    case AwaitingClient(_) => RunTrace.DoneFrame
    case Failed(_, _) => RunTrace.ErrorFrame
    case _ => RunTrace.CancelledFrame
  }

  /** Usage of a response that was thrown away without any frame carrying it. */
  function Unbooked(o: Outcome): Option<Usage> {
    match o
    case Failed(EmptyResponse, usage) => usage
    case Failed(TruncationDiscarded, usage) => usage
    case _ => None
  }

  /** The calls of the last produced message wait for the client, exactly those the gate
      found; every other call is answered. */
  ghost predicate Suspended(env: Env, produced: seq<Message>, gated: seq<Interaction>) {
    produced != [] && AnsweredInOrder(produced[..|produced| - 1]) && IsAssistant(produced[|produced| - 1]) &&
    gated != [] && exists calls :: gated == GatedUpTo(env, calls, |calls|) &&
                                   SameIds(calls, UseIds(produced[|produced| - 1].content))
  }

  /** Right before the run ended the client was sent one interrupt for each of them, in order. */
  predicate Interrupted(trace: seq<RunTrace.Frame>, gated: seq<Interaction>) {
    |trace| >= |gated| + 3 && forall k :: 0 <= k < |gated| ==>
      trace[|trace| - 3 - |gated| + k] == RunTrace.Interrupt(gated[k])
  }

  predicate SameIds(calls: seq<Call>, ids: seq<string>) {
    |calls| == |ids| && forall k :: 0 <= k < |calls| ==> calls[k].id == ids[k]
  }

  /** How a run ends. */
  ghost predicate Ended(cfg: Config, env: Env, s: State, o: Outcome) {
    var t := RunTrace.TallyOf(s.trace);
    && t.messages == s.produced && t.bracketed && t.passes == 1 && t.terminals == 1 && t.recoveries <= 1 && t.told
    && t.booked.Plus(Unbooked(o)) == s.spent
    && |s.trace| >= 2 && s.trace[|s.trace| - 1] == LastFrame(o) && s.trace[|s.trace| - 2] == RunTrace.AfterRunPass
    && (!o.CancelledBetweenSteps? ==>
          |s.trace| >= 3 && s.trace[|s.trace| - 3].StepFinish? &&
          s.trace[|s.trace| - 3].reason == StepReason(o) && !s.trace[|s.trace| - 3].continued)
    && (if o.AwaitingClient? then Suspended(env, s.produced, o.gated) && Interrupted(s.trace, o.gated)
        else AnsweredInOrder(s.produced))
    && (o.Completed? ==>
          Complete(cfg, o.stop, o.usage) && s.produced != [] &&
          IsAssistant(s.produced[|s.produced| - 1]) && UseIds(s.produced[|s.produced| - 1].content) == [])
    && Lawful(env, s.executed)
  }

  /** In an iteration, with every call answered; `due` is usage not yet carried by a frame. */
  ghost predicate Mid(env: Env, s: State, due: Option<Usage>) {
    AnsweredInOrder(s.produced) && Recorded(s) && Booked(s, due) && Lawful(env, s.executed)
  }

  /** In an iteration, with the calls of the last message still open. */
  ghost predicate Asking(env: Env, s: State, calls: seq<Call>) {
    && s.produced != [] && AnsweredInOrder(s.produced[..|s.produced| - 1])
    && IsAssistant(s.produced[|s.produced| - 1])
    && SameIds(calls, UseIds(s.produced[|s.produced| - 1].content))
    && Recorded(s) && Booked(s, None) && Lawful(env, s.executed)
  }

  // ---- Reference: what one turn amounts to --------------------------------------------------------

  /** The calls of a turn that may be executed: all, when the batch is whole and nothing in
      it needs the client; otherwise none. */
  predicate Runs(env: Env, t: Turn, r: ModelResult) {
    !t.afterAborts && !t.cancelledBeforeExit && Dispatchable(r.stop) && GatedUpTo(env, r.calls, |r.calls|) == []
  }

  predicate InterruptsDelivered(t: Turn, gated: seq<Interaction>) {
    t.lostInterrupt.None? || t.lostInterrupt.value >= |gated|
  }

  /** Why a batch is answered without being executed. */
  function Refusal(t: Turn, r: ModelResult): string {
    if t.afterAborts then "the run was aborted by middleware"
    else if t.cancelledBeforeExit then "the run was cancelled"
    else if r.stop == StopMaxTokens then "the response hit the max_tokens limit"
    else if r.stop == StopUnknown then "no finish reason was reported"
    else if !Dispatchable(r.stop) then "the response ended early"
    else "the run ended abnormally"
  }

  /** The turn leaves its calls to the client. */
  predicate LeftOpen(env: Env, t: Turn, r: ModelResult) {
    !t.afterAborts && !t.cancelledBeforeExit && Dispatchable(r.stop) &&
    GatedUpTo(env, r.calls, |r.calls|) != [] && InterruptsDelivered(t, GatedUpTo(env, r.calls, |r.calls|))
  }

  function ResultsOf(env: Env, calls: seq<Call>): (results: seq<CallResult>)
    ensures |results| == |calls|
  {
    seq(|calls|, k requires 0 <= k < |calls| => ResultOf(env, calls[k]))
  }

  function BatchResults(env: Env, t: Turn, r: ModelResult): (results: seq<CallResult>)
    ensures |results| == |r.calls|
  {
    if Runs(env, t, r) then ResultsOf(env, r.calls)
    else NotExecuted(r.calls, Refusal(t, r))
  }

  /** The message that answers a turn's calls, unless they are left to the client. */
  function Answers(env: Env, t: Turn, r: ModelResult): seq<Message> {
    if r.calls == [] || LeftOpen(env, t, r) then [] else [ToolResultMessage(r.calls, BatchResults(env, t, r))]
  }

  function FinalOutcome(cfg: Config, t: Turn, r: ModelResult): Outcome {
    if Complete(cfg, r.stop, r.usage) then (if t.cancelledBeforeExit then Cancelled else Completed(r.stop, r.usage))
    else
      Failed(if r.stop == StopMaxTokens then Truncated
             else if r.stop == StopUnknown then NoFinishReason
             else EndedEarly,
             r.usage)
  }

  function BatchNext(env: Env, t: Turn, r: ModelResult): Next {
    var gated := GatedUpTo(env, r.calls, |r.calls|);
    if t.cancelledBeforeExit then Exit(Cancelled)
    else if !Dispatchable(r.stop) || gated == [] then Continue
    else Exit(if InterruptsDelivered(t, gated) then AwaitingClient(gated) else Failed(InterruptLost, r.usage))
  }

  function MessageNext(cfg: Config, env: Env, t: Turn, r: ModelResult): Next {
    if t.afterAborts then Exit(Failed(HookAbort, r.usage))
    else if r.calls == [] then Exit(FinalOutcome(cfg, t, r))
    else BatchNext(env, t, r)
  }

  predicate Empty(r: ModelResult) {
    r.calls == [] && DropEmptyBlocks(r.content) == []
  }

  predicate ContextPressure(cfg: Config, r: ModelResult) {
    r.calls == [] && r.stop == StopMaxTokens && IsRecoverableLength(r.usage, cfg.maxTokens)
  }

  /** Where a turn leads, what it adds to the record and to the executions, and what the
      provider charged for it. */
  datatype Effect = Effect(next: Next, messages: seq<Message>, executed: seq<Execution>, usage: Option<Usage>)

  function ResultEffect(cfg: Config, env: Env, recovered: bool, view: seq<Message>, t: Turn, r: ModelResult): Effect {
    if Empty(r) then Effect(Exit(Failed(EmptyResponse, r.usage)), [], [], r.usage)
    else if ContextPressure(cfg, r) then
      var spent := recovered || DropForOverflow(view).Refused?;
      Effect(if spent then Exit(Failed(TruncationDiscarded, r.usage)) else Continue, [], [], r.usage)
    else MessageEffect(cfg, env, t, r)
  }

  /** A truncation under context pressure is thrown away and retried. */
  predicate Recovers(cfg: Config, t: Turn) {
    t.attempt.Some? && !Empty(t.attempt.value) && ContextPressure(cfg, t.attempt.value)
  }

  /** The books a turn that goes on leaves behind: those of the model call, less the round
      dropped for a truncation. */
  function BooksNext(cfg: Config, view: seq<Message>, t: Turn): Books {
    if Recovers(cfg, t) && LoopDrop(view, t.booksAfter).Some? then LoopDrop(view, t.booksAfter).value else t.booksAfter
  }

  /** The last frame finishes the step, to be followed by another. */
  predicate Closes(s: State, reason: string, usage: Option<Usage>) {
    s.trace != [] && s.trace[|s.trace| - 1] == RunTrace.StepFinish(reason, usage, true)
  }

  /** Why a step is finished that another one follows. */
  function ReasonToGoOn(stop: StopReason): string {
    match stop
    case StopMaxTokens => "length"
    case StopEndTurn => "tool-calls"
    case StopToolUse => "tool-calls"
    case _ => "error"
  }

  predicate GoesOn(cfg: Config, view: seq<Message>, t: Turn, s0: State, s: State) {
    s.books == BooksNext(cfg, view, t) && (s.recovered <==> s0.recovered || Recovers(cfg, t)) &&
    t.attempt.Some? && Closes(s, ReasonToGoOn(t.attempt.value.stop), t.attempt.value.usage)
  }

  function MessageEffect(cfg: Config, env: Env, t: Turn, r: ModelResult): Effect {
    Effect(MessageNext(cfg, env, t, r), [Message(RoleAssistant, DropEmptyBlocks(r.content))] + Answers(env, t, r),
           Executed(env, t, r), r.usage)
  }

  function Executed(env: Env, t: Turn, r: ModelResult): seq<Execution> {
    if Runs(env, t, r) then Executions(ToolGate.Executed(env, r.calls, |r.calls|), r.stop) else []
  }

  function TurnEffect(cfg: Config, env: Env, recovered: bool, view: seq<Message>, t: Turn): Effect {
    if t.cancelledAtStart then Effect(Exit(CancelledBetweenSteps), [], [], None)
    else if t.beforeAborts then Effect(Exit(Failed(HookAbort, None)), [], [], None)
    else match t.attempt
      case None => Effect(Exit(if t.cancelledInAttempt then Cancelled else Failed(AttemptFailed, None)), [], [], None)
      case Some(r) => ResultEffect(cfg, env, recovered, view, t, r)
  }

  /** The state after a turn, as far as the record, the executions and the usage go. */
  predicate Has(s: State, s0: State, next: Next, e: Effect) {
    next == e.next && s.produced == s0.produced + e.messages && s.executed == s0.executed + e.executed &&
    s.spent == s0.spent.Plus(e.usage) && s0.trace <= s.trace
  }

  /** The same for the part of a turn after the usage was counted. */
  predicate Adds(s: State, s0: State, next: Next, e: Effect) {
    next == e.next && s.produced == s0.produced + e.messages && s.executed == s0.executed + e.executed && Keeps(s, s0)
  }

  /** How many steps were opened so far. */
  function Starts(s: State): nat {
    RunTrace.TallyOf(s.trace).starts
  }

  /** Neither usage was counted nor a step opened, and no frame was taken back. */
  predicate Keeps(s: State, s0: State) {
    s.spent == s0.spent && Starts(s) == Starts(s0) && s0.trace <= s.trace
  }

  // ---- Exits -----------------------------------------------------------------------------------

  lemma FailEnds(cfg: Config, env: Env, s: State, usage: Option<Usage>, reason: string, o: Outcome)
    requires o.Failed? && reason == StepReason(o) && Mid(env, s, Unbooked(o))
    ensures Ended(cfg, env, FailRun(s, usage, reason), o)
  {
  }

  lemma CancelEnds(cfg: Config, env: Env, s: State, usage: Option<Usage>)
    requires Mid(env, s, None)
    ensures Ended(cfg, env, CancelRun(s, usage), Cancelled)
  {
  }

  lemma CompleteEnds(cfg: Config, env: Env, s: State, stop: StopReason, usage: Option<Usage>)
    requires Mid(env, s, None) && Complete(cfg, stop, usage) && s.produced != []
    requires IsAssistant(s.produced[|s.produced| - 1]) && UseIds(s.produced[|s.produced| - 1].content) == []
    ensures Ended(cfg, env, SucceedRun(s, usage, "stop"), Completed(stop, usage))
  {
  }

  predicate EndsWith(trace: seq<RunTrace.Frame>, last: seq<RunTrace.Frame>) {
    |trace| >= |last| && trace[|trace| - |last|..] == last
  }

  lemma AwaitEnds(cfg: Config, env: Env, s: State, calls: seq<Call>, usage: Option<Usage>)
    requires Asking(env, s, calls) && GatedUpTo(env, calls, |calls|) != []
    requires EndsWith(s.trace, Interrupts(GatedUpTo(env, calls, |calls|)))
    ensures Ended(cfg, env, SucceedRun(s, usage, "tool-calls"), AwaitingClient(GatedUpTo(env, calls, |calls|)))
  {
  }

  // ---- Answering a batch ---------------------------------------------------------------------------

  lemma {:induction false} ResultMessageIds(content: seq<Block>, calls: seq<Call>, n: nat)
    requires n <= |content| == |calls|
    requires forall k :: 0 <= k < |calls| ==> content[k].ToolResult? && content[k].resultId == calls[k].id
    ensures |ResultIds(content[..n])| == n && forall k :: 0 <= k < n ==> ResultIds(content[..n])[k] == calls[k].id
  {
    if n > 0 {
      ResultMessageIds(content, calls, n - 1);
      assert content[..n][..n - 1] == content[..n - 1];
    }
  }

  lemma Exchange(msgs: seq<Message>, calls: seq<Call>, results: seq<CallResult>)
    requires msgs != [] && AnsweredInOrder(msgs[..|msgs| - 1]) && IsAssistant(msgs[|msgs| - 1])
    requires SameIds(calls, UseIds(msgs[|msgs| - 1].content)) && calls != [] && |results| == |calls|
    ensures AnsweredInOrder(msgs + [ToolResultMessage(calls, results)])
  {
    var answer := ToolResultMessage(calls, results);
    var out, n := msgs + [answer], |msgs| - 1;
    assert answer.content[..|calls|] == answer.content;
    ResultMessageIds(answer.content, calls, |calls|);
    assert ResultIds(answer.content) == UseIds(msgs[n].content);
    forall i | 0 <= i < |out| ensures AnsweredAt(out, i) {
      if i < n {
        assert AnsweredAt(msgs[..n], i);
      }
    }
  }

  lemma FinalAnswer(msgs: seq<Message>)
    requires msgs != [] && AnsweredInOrder(msgs[..|msgs| - 1]) && IsAssistant(msgs[|msgs| - 1])
    requires UseIds(msgs[|msgs| - 1].content) == []
    ensures AnsweredInOrder(msgs)
  {
    forall i | 0 <= i < |msgs| ensures AnsweredAt(msgs, i) {
      if i < |msgs| - 1 {
        assert AnsweredAt(msgs[..|msgs| - 1], i);
      }
    }
  }

  lemma StreamedNext(trace0: seq<RunTrace.Frame>, trace: seq<RunTrace.Frame>, calls: seq<Call>,
                     results: seq<CallResult>, k: nat)
    requires trace0 <= trace && k < |calls| == |results| && Streamed(trace[|trace0|..], calls[..k], results[..k])
    ensures var f := RunTrace.ToolResultFrame(calls[k].id, calls[k].name, results[k].content, results[k].isError);
            trace0 <= trace + [f] && Streamed((trace + [f])[|trace0|..], calls[..k + 1], results[..k + 1])
  {
    var f := RunTrace.ToolResultFrame(calls[k].id, calls[k].name, results[k].content, results[k].isError);
    assert (trace + [f])[|trace0|..] == trace[|trace0|..] + [f];
  }

  function ListedResults(calls: seq<Call>, results: seq<CallResult>): seq<(string, CallResult)>
    requires |calls| == |results|
  {
    seq(|calls|, k requires 0 <= k < |calls| => (calls[k].id, results[k]))
  }

  /** Nothing but results was streamed. */
  ghost predicate StreamedOnly(s0: State, s: State) {
    var t := RunTrace.TallyOf(s0.trace);
    RunTrace.TallyOf(s.trace) == t.(streamed := RunTrace.TallyOf(s.trace).streamed)
  }

  lemma ListedNext(calls: seq<Call>, results: seq<CallResult>, k: nat)
    requires k < |calls| == |results|
    ensures ListedResults(calls[..k + 1], results[..k + 1]) ==
              ListedResults(calls[..k], results[..k]) + [(calls[k].id, results[k])]
  {
  }

  method StreamResults(s0: State, calls: seq<Call>, results: seq<CallResult>) returns (s: State)
    requires |results| == |calls|
    ensures s == s0.(trace := s.trace) && s0.trace <= s.trace && Streamed(s.trace[|s0.trace|..], calls, results)
    ensures StreamedOnly(s0, s) &&
            RunTrace.TallyOf(s.trace).streamed == RunTrace.TallyOf(s0.trace).streamed + ListedResults(calls, results)
  {
    s := s0;
    for k := 0 to |results|
      invariant s == s0.(trace := s.trace) && StreamedOnly(s0, s)
      invariant RunTrace.TallyOf(s.trace).streamed ==
                RunTrace.TallyOf(s0.trace).streamed + ListedResults(calls[..k], results[..k])
      invariant s0.trace <= s.trace && Streamed(s.trace[|s0.trace|..], calls[..k], results[..k])
    {
      StreamedNext(s0.trace, s.trace, calls, results, k);
      ListedNext(calls, results, k);
      s := Emit(s, RunTrace.ToolResultFrame(calls[k].id, calls[k].name, results[k].content, results[k].isError));
    }
    assert calls[..|calls|] == calls && results[..|results|] == results;
  }

  /** Stream each result, then record the message that answers the whole batch. */
  method RecordToolResults(env: Env, s0: State, calls: seq<Call>, results: seq<CallResult>) returns (s: State)
    requires Asking(env, s0, calls) && calls != [] && |results| == |calls|
    ensures Mid(env, s, None)
    ensures s.produced == s0.produced + [ToolResultMessage(calls, results)]
    ensures Tells(ToolResultMessage(calls, results), calls, results)
    ensures s0.trace <= s.trace && |s.trace| == |s0.trace| + |calls| + 1 &&
            Streamed(s.trace[|s0.trace|..|s.trace| - 1], calls, results) &&
            s.trace[|s.trace| - 1] == RunTrace.ToolMessage(ToolResultMessage(calls, results))
    ensures RunTrace.TallyOf(s.trace).stepOpen == RunTrace.TallyOf(s0.trace).stepOpen && Starts(s) == Starts(s0)
    ensures s == s0.(produced := s.produced, trace := s.trace)
  {
    s := StreamResults(s0, calls, results);
    Exchange(s0.produced, calls, results);
    s := s.(produced := s.produced + [ToolResultMessage(calls, results)]);
    s := Emit(s, RunTrace.ToolMessage(ToolResultMessage(calls, results)));
  }

  // ---- Context pressure --------------------------------------------------------------------------------

  /** Drop the oldest round of the view and note it in the books; None when nothing is left
      to drop. */
  function LoopDrop(view: seq<Message>, books: Books): Option<Books> {
    match DropForOverflow(view)
    case Refused => None
    case Dropped(shrunk) =>
      if books.cache.Some? && books.cache.value.covered > 0 && view != [] && IsSummary(view[0])
      then Some(books.(cache := Some(Rebooked(books.cache.value, view, shrunk))))
      else Some(books.(viewDropped := books.viewDropped + |view| - |shrunk|))
  }

  /** A truncated response below the cap is thrown away; the request is retried once, after
      dropping the oldest round. */
  method RecoverTruncation(cfg: Config, env: Env, s0: State, view: seq<Message>, usage: Option<Usage>)
    returns (s: State, next: Next)
    requires Mid(env, s0, usage)
    ensures next.Continue? ==>
      Inv(env, s) && !s0.recovered && s.recovered && s.produced == s0.produced &&
      LoopDrop(view, s0.books) == Some(s.books) && Closes(s, "length", usage)
    ensures next.Exit? ==>
      Ended(cfg, env, s, next.outcome) && next.outcome == Failed(TruncationDiscarded, usage) &&
      s.produced == s0.produced
    ensures next.Exit? <==> s0.recovered || DropForOverflow(view).Refused?
    ensures s.executed == s0.executed && Keeps(s, s0)
  {
    var drop := LoopDrop(view, s0.books);
    if s0.recovered || drop.None? {
      FailEnds(cfg, env, s0, usage, "error", Failed(TruncationDiscarded, usage));
      return FailRun(s0, usage, "error"), Exit(Failed(TruncationDiscarded, usage));
    }
    s := s0.(books := drop.value, recovered := true);
    s := FinishStep(Emit(s, RunTrace.OverflowRecovery(usage)), "length", usage, true);
    RecoveryKeeps(env, s0, s, usage);
    next := Continue;
  }

  lemma RecoveryKeeps(env: Env, s0: State, s: State, usage: Option<Usage>)
    requires Mid(env, s0, usage) && !s0.recovered && s.recovered
    requires s == FinishStep(Emit(s0.(books := s.books, recovered := true), RunTrace.OverflowRecovery(usage)), "length",
                             usage, true)
    ensures Inv(env, s) && Closes(s, "length", usage) && Keeps(s, s0)
    ensures s.produced == s0.produced && s.executed == s0.executed
  {
  }

  // ---- After the model's message ----------------------------------------------------------------------

  method FailWith(cfg: Config, env: Env, s0: State, usage: Option<Usage>, cause: Cause) returns (s: State, next: Next)
    requires Mid(env, s0, Unbooked(Failed(cause, usage)))
    ensures next == Exit(Failed(cause, usage)) && Ended(cfg, env, s, next.outcome)
    ensures s.produced == s0.produced && s.executed == s0.executed && Keeps(s, s0)
  {
    var o := Failed(cause, usage);
    FailEnds(cfg, env, s0, usage, StepReason(o), o);
    s, next := FailRun(s0, usage, StepReason(o)), Exit(o);
  }

  /** A turn without calls: only a natural end, or a genuine output limit, is an answer. */
  method FinalTurn(cfg: Config, env: Env, s0: State, t: Turn, r: ModelResult) returns (s: State, next: Next)
    requires Asking(env, s0, [])
    ensures next == Exit(FinalOutcome(cfg, t, r)) && Ended(cfg, env, s, next.outcome)
    ensures s.produced == s0.produced && s.executed == s0.executed && Keeps(s, s0)
  {
    var stop, usage := r.stop, r.usage;
    FinalAnswer(s0.produced);
    var genuine := stop == StopMaxTokens && GenuineLength(usage, cfg.maxTokens);
    var cause := None;
    if stop == StopMaxTokens && !genuine {
      cause := Some(Truncated);
    } else if stop == StopUnknown {
      cause := Some(NoFinishReason);
    } else if stop != StopEndTurn && !genuine {
      cause := Some(EndedEarly);
    }
    if cause.Some? {
      s, next := FailWith(cfg, env, s0, usage, cause.value);
    } else if t.cancelledBeforeExit {
      CancelEnds(cfg, env, s0, usage);
      s, next := CancelRun(s0, usage), Exit(Cancelled);
    } else {
      CompleteEnds(cfg, env, s0, stop, usage);
      s, next := SucceedRun(s0, usage, "stop"), Exit(Completed(stop, usage));
    }
  }

  /** Answer a batch that is not executed, and go on. */
  method ReissueBatch(env: Env, s0: State, calls: seq<Call>, why: string, reason: string, usage: Option<Usage>)
    returns (s: State)
    requires Asking(env, s0, calls) && calls != []
    ensures Inv(env, s) && s.executed == s0.executed && s.recovered == s0.recovered && s.books == s0.books
    ensures Keeps(s, s0) && Closes(s, reason, usage)
    ensures s.produced == s0.produced + [ToolResultMessage(calls, NotExecuted(calls, why))]
  {
    s := RecordToolResults(env, s0, calls, NotExecuted(calls, why));
    s := FinishStep(s, reason, usage, true);
  }

  /** A turn with calls: a batch that may be half-written is failed for re-issue, a gated
      batch ends the run, everything else is dispatched. */
  method BatchTurn(cfg: Config, env: Env, s0: State, t: Turn, r: ModelResult) returns (s: State, next: Next)
    requires Asking(env, s0, r.calls) && r.calls != [] && !t.afterAborts
    ensures next.Continue? ==>
              Inv(env, s) && s.recovered == s0.recovered && s.books == s0.books &&
              Closes(s, ReasonToGoOn(r.stop), r.usage)
    ensures next.Exit? ==> Ended(cfg, env, s, next.outcome)
    ensures Adds(s, s0, next, Effect(BatchNext(env, t, r), Answers(env, t, r), Executed(env, t, r), r.usage))
  {
    next := Continue;
    var calls, stop, usage := r.calls, r.stop, r.usage;
    if t.cancelledBeforeExit {
      RefusedEffect(env, t, r);
      s := RecordToolResults(env, s0, calls, NotExecuted(calls, "the run was cancelled"));
      CancelEnds(cfg, env, s, usage);
      s, next := CancelRun(s, usage), Exit(Cancelled);
    } else if stop == StopMaxTokens {
      RefusedEffect(env, t, r);
      s := ReissueBatch(env, s0, calls, "the response hit the max_tokens limit", "length", usage);
    } else if stop == StopUnknown {
      RefusedEffect(env, t, r);
      s := ReissueBatch(env, s0, calls, "no finish reason was reported", "error", usage);
    } else if !Dispatchable(stop) {
      RefusedEffect(env, t, r);
      s := ReissueBatch(env, s0, calls, "the response ended early", "error", usage);
    } else {
      s, next := WholeBatch(cfg, env, s0, t, r);
    }
    assert s0.executed + [] == s0.executed && s0.produced + [] == s0.produced;
  }

  /** A whole batch: it waits for the client if any of its calls does, and runs otherwise. */
  method WholeBatch(cfg: Config, env: Env, s0: State, t: Turn, r: ModelResult) returns (s: State, next: Next)
    requires Asking(env, s0, r.calls) && r.calls != [] && !t.afterAborts && !t.cancelledBeforeExit
    requires Dispatchable(r.stop)
    ensures next.Continue? ==>
              Inv(env, s) && s.recovered == s0.recovered && s.books == s0.books &&
              Closes(s, ReasonToGoOn(r.stop), r.usage)
    ensures next.Exit? ==> Ended(cfg, env, s, next.outcome)
    ensures Adds(s, s0, next, Effect(BatchNext(env, t, r), Answers(env, t, r), Executed(env, t, r), r.usage))
  {
    next := Continue;
    var gated := InteractionGate(env, r.calls);
    GateEffect(env, t, r, gated);
    if gated != [] {
      s, next := Suspend(cfg, env, s0, t, r.calls, gated, r.usage);
    } else {
      s := RunBatch(env, s0, r.calls, r.stop, r.usage);
    }
    assert s0.executed + [] == s0.executed && s0.produced + [] == s0.produced;
  }

  lemma RefusedEffect(env: Env, t: Turn, r: ModelResult)
    requires r.calls != [] && (t.cancelledBeforeExit || !Dispatchable(r.stop))
    ensures Answers(env, t, r) == [ToolResultMessage(r.calls, NotExecuted(r.calls, Refusal(t, r)))] &&
            Executed(env, t, r) == []
  {
  }

  lemma GateEffect(env: Env, t: Turn, r: ModelResult, gated: seq<Interaction>)
    requires r.calls != [] && !t.afterAborts && !t.cancelledBeforeExit && Dispatchable(r.stop) &&
             gated == GatedUpTo(env, r.calls, |r.calls|)
    ensures gated != [] ==> Executed(env, t, r) == []
    ensures gated != [] ==>
              Answers(env, t, r) ==
              (if InterruptsDelivered(t, gated) then []
               else [ToolResultMessage(r.calls, NotExecuted(r.calls, "the run ended abnormally"))])
    ensures gated == [] ==> Executed(env, t, r) == Executions(ToolGate.Executed(env, r.calls, |r.calls|), r.stop)
    ensures gated == [] ==> Answers(env, t, r) == [ToolResultMessage(r.calls, ResultsOf(env, r.calls))]
  {
  }

  function Interrupts(gated: seq<Interaction>): seq<RunTrace.Frame> {
    seq(|gated|, k requires 0 <= k < |gated| => RunTrace.Interrupt(gated[k]))
  }

  /** Emit one interrupt per gated call, in order, up to the first that is lost. */
  method EmitInterrupts(s0: State, gated: seq<Interaction>, lost: Option<nat>) returns (s: State, ok: bool)
    ensures s == s0.(trace := s.trace) && RunTrace.TallyOf(s.trace) == RunTrace.TallyOf(s0.trace)
    ensures ok <==> lost.None? || lost.value >= |gated|
    ensures s0.trace <= s.trace && (ok ==> s.trace == s0.trace + Interrupts(gated))
  {
    s, ok := s0, true;
    for k := 0 to |gated|
      invariant InterruptedUpTo(s0, gated, k, s)
      invariant lost.Some? ==> lost.value >= k
    {
      NextInterrupt(s0, gated, k, s);
      s := Emit(s, RunTrace.Interrupt(gated[k]));
      if lost == Some(k) {
        return s, false;
      }
    }
  }

  ghost predicate InterruptedUpTo(s0: State, gated: seq<Interaction>, k: nat, s: State) {
    k <= |gated| && s == s0.(trace := s0.trace + Interrupts(gated)[..k]) &&
    RunTrace.TallyOf(s.trace) == RunTrace.TallyOf(s0.trace)
  }

  lemma NextInterrupt(s0: State, gated: seq<Interaction>, k: nat, s: State)
    requires k < |gated| && InterruptedUpTo(s0, gated, k, s)
    ensures InterruptedUpTo(s0, gated, k + 1, Emit(s, RunTrace.Interrupt(gated[k])))
  {
    assert Interrupts(gated)[..k + 1] == Interrupts(gated)[..k] + [RunTrace.Interrupt(gated[k])];
    assert s.trace + [RunTrace.Interrupt(gated[k])] == s0.trace + Interrupts(gated)[..k + 1];
  }

  /** End the run on the gated calls; if an interrupt cannot be delivered, answer the batch
      and fail instead. */
  method Suspend(cfg: Config, env: Env, s0: State, t: Turn, calls: seq<Call>, gated: seq<Interaction>,
                 usage: Option<Usage>)
    returns (s: State, next: Next)
    requires Asking(env, s0, calls) && calls != [] && gated == GatedUpTo(env, calls, |calls|) != []
    ensures next.Exit? && Ended(cfg, env, s, next.outcome) && s.executed == s0.executed && Keeps(s, s0)
    ensures next.outcome ==
            if InterruptsDelivered(t, gated) then AwaitingClient(gated) else Failed(InterruptLost, usage)
    ensures s.produced ==
            s0.produced +
            if InterruptsDelivered(t, gated) then []
            else [ToolResultMessage(calls, NotExecuted(calls, "the run ended abnormally"))]
    ensures next.outcome.AwaitingClient? ==>
      s.trace ==
        s0.trace + Interrupts(gated) + [RunTrace.StepFinish("tool-calls", usage, false), RunTrace.AfterRunPass,
                                        RunTrace.DoneFrame]
  {
    var s1, ok := EmitInterrupts(s0, gated, t.lostInterrupt);
    s := s1;
    StillAsking(env, s0, s, calls);
    if ok {
      InterruptsLast(s0, s, gated);
      s, next := AwaitClient(cfg, env, s, calls, usage);
    } else {
      s, next := AbandonBatch(cfg, env, s, calls, usage);
    }
    KeepsOn(s0, s1, s);
  }

  lemma KeepsOn(s0: State, s1: State, s: State)
    requires s1 == s0.(trace := s1.trace) && s0.trace <= s1.trace && Starts(s1) == Starts(s0) && Keeps(s, s1)
    ensures Keeps(s, s0)
  {
  }

  lemma InterruptsLast(s0: State, s: State, gated: seq<Interaction>)
    requires s.trace == s0.trace + Interrupts(gated)
    ensures EndsWith(s.trace, Interrupts(gated))
  {
  }

  method AwaitClient(cfg: Config, env: Env, s0: State, calls: seq<Call>, usage: Option<Usage>)
    returns (s: State, next: Next)
    requires Asking(env, s0, calls) && GatedUpTo(env, calls, |calls|) != []
    requires EndsWith(s0.trace, Interrupts(GatedUpTo(env, calls, |calls|)))
    ensures next == Exit(AwaitingClient(GatedUpTo(env, calls, |calls|)))
    ensures Ended(cfg, env, s, next.outcome) && Keeps(s, s0)
    ensures s == s0.(trace := s0.trace + [RunTrace.StepFinish("tool-calls", usage, false), RunTrace.AfterRunPass,
                                          RunTrace.DoneFrame])
  {
    AwaitEnds(cfg, env, s0, calls, usage);
    s, next := SucceedRun(s0, usage, "tool-calls"), Exit(AwaitingClient(GatedUpTo(env, calls, |calls|)));
  }

  lemma StillAsking(env: Env, s: State, s': State, calls: seq<Call>)
    requires Asking(env, s, calls) && s' == s.(trace := s'.trace)
    requires RunTrace.TallyOf(s'.trace) == RunTrace.TallyOf(s.trace)
    ensures Asking(env, s', calls)
  {
  }

  method AbandonBatch(cfg: Config, env: Env, s0: State, calls: seq<Call>, usage: Option<Usage>)
    returns (s: State, next: Next)
    requires Asking(env, s0, calls) && calls != []
    ensures next == Exit(Failed(InterruptLost, usage)) && Ended(cfg, env, s, next.outcome) && s.executed == s0.executed
    ensures Keeps(s, s0)
    ensures s.produced == s0.produced + [ToolResultMessage(calls, NotExecuted(calls, "the run ended abnormally"))]
  {
    s := RecordToolResults(env, s0, calls, NotExecuted(calls, "the run ended abnormally"));
    s, next := FailWith(cfg, env, s, usage, InterruptLost);
  }

  function Executions(calls: seq<Call>, stop: StopReason): seq<Execution> {
    seq(|calls|, k requires 0 <= k < |calls| => Execution(calls[k], stop))
  }

  method RunBatch(env: Env, s0: State, calls: seq<Call>, stop: StopReason, usage: Option<Usage>) returns (s: State)
    requires Asking(env, s0, calls) && calls != [] && Dispatchable(stop) && GatedUpTo(env, calls, |calls|) == []
    ensures Inv(env, s) && s.recovered == s0.recovered && s.books == s0.books && Keeps(s, s0)
    ensures Closes(s, "tool-calls", usage)
    ensures s.executed == s0.executed + Executions(ToolGate.Executed(env, calls, |calls|), stop)
    ensures s.produced == s0.produced + [ToolResultMessage(calls, ResultsOf(env, calls))]
  {
    var results, executed := Dispatch(env, calls);
    assert results == ResultsOf(env, calls);
    UngatedBatch(env, calls, |calls|);
    s := s0.(executed := s0.executed + Executions(executed, stop));
    s := RecordToolResults(env, s, calls, results);
    s := FinishStep(s, "tool-calls", usage, true);
  }

  // ---- One iteration ------------------------------------------------------------------------------------

  lemma {:induction false} DropEmptyKeepsCalls(content: seq<Block>)
    ensures UseIds(DropEmptyBlocks(content)) == UseIds(content)
    ensures DropEmptyBlocks(content) == [] ==> UseIds(content) == []
  {
    if content != [] {
      var init, b := content[..|content| - 1], content[|content| - 1];
      DropEmptyKeepsCalls(init);
      assert (DropEmptyBlocks(init) + [b])[..|DropEmptyBlocks(init)|] == DropEmptyBlocks(init);
    }
  }

  lemma CallsHaveIds(content: seq<Block>)
    ensures SameIds(CallsOf(content), UseIds(DropEmptyBlocks(content)))
  {
    DropEmptyKeepsCalls(content);
    CallsSameIds(content);
  }

  lemma {:induction false} CallsSameIds(content: seq<Block>)
    ensures SameIds(CallsOf(content), UseIds(content))
  {
    if content != [] {
      CallsSameIds(content[..|content| - 1]);
    }
  }

  /** A hook aborts the run; the calls of the message are answered first. */
  method AbortMessage(cfg: Config, env: Env, s0: State, calls: seq<Call>, usage: Option<Usage>)
    returns (s: State, next: Next)
    requires Asking(env, s0, calls)
    ensures next == Exit(Failed(HookAbort, usage)) && Ended(cfg, env, s, next.outcome) && s.executed == s0.executed
    ensures s.produced ==
            s0.produced + if calls == [] then []
                          else [ToolResultMessage(calls, NotExecuted(calls, "the run was aborted by middleware"))]
    ensures Keeps(s, s0)
  {
    s := s0;
    if calls != [] {
      s := RecordToolResults(env, s, calls, NotExecuted(calls, "the run was aborted by middleware"));
    } else {
      FinalAnswer(s.produced);
    }
    s, next := FailWith(cfg, env, s, usage, HookAbort);
  }

  /** From the assembled message on. */
  method AfterMessage(cfg: Config, env: Env, s0: State, t: Turn, content: seq<Block>, r: ModelResult)
    returns (s: State, next: Next)
    requires Mid(env, s0, r.usage) && SameIds(r.calls, UseIds(content)) && content == DropEmptyBlocks(r.content)
    ensures next.Continue? ==>
              Inv(env, s) && s.recovered == s0.recovered && s.books == s0.books &&
              Closes(s, ReasonToGoOn(r.stop), r.usage)
    ensures next.Exit? ==> Ended(cfg, env, s, next.outcome)
    ensures Adds(s, s0, next, MessageEffect(cfg, env, t, r))
  {
    var m := Message(RoleAssistant, content);
    s := s0.(produced := s0.produced + [m]);
    s := Emit(s, RunTrace.AssistantMessage(m, r.usage));
    assert s.produced[..|s.produced| - 1] == s0.produced;
    assert Asking(env, s, r.calls);
    if t.afterAborts {
      s, next := AbortMessage(cfg, env, s, r.calls, r.usage);
    } else if r.calls == [] {
      s, next := FinalTurn(cfg, env, s, t, r);
    } else {
      s, next := BatchTurn(cfg, env, s, t, r);
    }
  }

  /** The model answered: account for it, and throw away what must not be recorded. */
  method HandleResult(cfg: Config, env: Env, s0: State, t: Turn, view: seq<Message>, r: ModelResult)
    returns (s: State, next: Next)
    requires Mid(env, s0, None) && r.calls == CallsOf(r.content) && t.attempt == Some(r) && s0.books == t.booksAfter
    ensures next.Continue? ==> Inv(env, s) && GoesOn(cfg, view, t, s0, s)
    ensures next.Exit? ==> Ended(cfg, env, s, next.outcome)
    ensures Has(s, s0, next, ResultEffect(cfg, env, s0.recovered, view, t, r)) && Starts(s) == Starts(s0)
  {
    var s1 := s0.(spent := s0.spent.Plus(r.usage));
    s, next := Consider(cfg, env, s1, t, view, r);
    Charged(s0, s1, s, next, ResultEffect(cfg, env, s0.recovered, view, t, r), r.usage);
  }

  method Consider(cfg: Config, env: Env, s0: State, t: Turn, view: seq<Message>, r: ModelResult)
    returns (s: State, next: Next)
    requires Mid(env, s0, r.usage) && r.calls == CallsOf(r.content) && t.attempt == Some(r) && s0.books == t.booksAfter
    ensures next.Continue? ==> Inv(env, s) && GoesOn(cfg, view, t, s0, s)
    ensures next.Exit? ==> Ended(cfg, env, s, next.outcome)
    ensures Adds(s, s0, next, ResultEffect(cfg, env, s0.recovered, view, t, r))
  {
    var content := DropEmptyBlocks(r.content);
    CallsHaveIds(r.content);
    assert s0.executed + [] == s0.executed && s0.produced + [] == s0.produced;
    if r.calls == [] && content == [] {
      s, next := FailWith(cfg, env, s0, r.usage, EmptyResponse);
    } else if r.calls == [] && r.stop == StopMaxTokens && IsRecoverableLength(r.usage, cfg.maxTokens) {
      s, next := RecoverTruncation(cfg, env, s0, view, r.usage);
    } else {
      s, next := AfterMessage(cfg, env, s0, t, content, r);
    }
  }

  lemma Charged(s0: State, s1: State, s: State, next: Next, e: Effect, usage: Option<Usage>)
    requires s1 == s0.(spent := s0.spent.Plus(usage)) && e.usage == usage
    requires Adds(s, s1, next, e)
    ensures Has(s, s0, next, e) && Starts(s) == Starts(s0)
  {
  }

  lemma CancelBetweenEnds(cfg: Config, env: Env, s: State)
    requires Inv(env, s)
    ensures Ended(cfg, env, Emit(Emit(s, RunTrace.AfterRunPass), RunTrace.CancelledFrame), CancelledBetweenSteps)
  {
  }

  /** The model call and what follows from it. */
  method CallModel(cfg: Config, env: Env, s0: State, t: Turn, view: seq<Message>) returns (s: State, next: Next)
    requires Mid(env, s0, None) && Assembled(t) && !t.cancelledAtStart && !t.beforeAborts
    ensures next.Continue? ==> Inv(env, s) && GoesOn(cfg, view, t, s0, s)
    ensures next.Exit? ==> Ended(cfg, env, s, next.outcome)
    ensures Has(s, s0, next, TurnEffect(cfg, env, s0.recovered, view, t)) && Starts(s) == Starts(s0)
  {
    s := s0.(books := t.booksAfter);
    match t.attempt {
      case None =>
        if t.cancelledInAttempt {
          CancelEnds(cfg, env, s, None);
          return CancelRun(s, None), Exit(Cancelled);
        }
        s, next := FailWith(cfg, env, s, None, AttemptFailed);
      case Some(r) =>
        s, next := HandleResult(cfg, env, s, t, view, r);
    }
  }

  /** The view an iteration starts from. */
  function ViewOf(base: seq<Message>, s: State, t: Turn): seq<Message> {
    Rebuilt(base + s.produced, s.books.viewDropped) + t.injected
  }

  /** The first step of a run was opened before the loop. */
  method StartStep(env: Env, s0: State, iter: nat) returns (s: State)
    requires Inv(env, s0)
    ensures Mid(env, s, None) && s == s0.(trace := s.trace) && s0.trace <= s.trace
    ensures Starts(s) == Starts(s0) + if iter > 0 then 1 else 0
  {
    s := if iter > 0 then Emit(s0, RunTrace.StepStart) else s0;
  }

  method CancelBetween(cfg: Config, env: Env, s0: State) returns (s: State, next: Next)
    requires Inv(env, s0)
    ensures next == Exit(CancelledBetweenSteps) && Ended(cfg, env, s, next.outcome)
    ensures s == s0.(trace := s.trace) && Keeps(s, s0)
  {
    CancelBetweenEnds(cfg, env, s0);
    s, next := Emit(Emit(s0, RunTrace.AfterRunPass), RunTrace.CancelledFrame), Exit(CancelledBetweenSteps);
  }

  method Iterate(cfg: Config, env: Env, base: seq<Message>, s0: State, t: Turn, iter: nat)
    returns (s: State, next: Next)
    requires Inv(env, s0) && Assembled(t)
    ensures next.Continue? ==> Inv(env, s) && GoesOn(cfg, ViewOf(base, s0, t), t, s0, s)
    ensures next.Exit? ==> Ended(cfg, env, s, next.outcome)
    ensures Has(s, s0, next, TurnEffect(cfg, env, s0.recovered, ViewOf(base, s0, t), t))
    ensures Starts(s) == Starts(s0) + if iter > 0 && !t.cancelledAtStart then 1 else 0
  {
    if t.cancelledAtStart {
      s, next := CancelBetween(cfg, env, s0);
      return;
    }
    s := StartStep(env, s0, iter);
    ghost var s1 := s;
    var view := ViewOf(base, s, t);
    if t.beforeAborts {
      s, next := FailWith(cfg, env, s, None, HookAbort);
    } else {
      s, next := CallModel(cfg, env, s, t, view);
    }
    StepOpened(s0, s1, s, next, TurnEffect(cfg, env, s0.recovered, view, t));
  }

  lemma StepOpened(s0: State, s1: State, s: State, next: Next, e: Effect)
    requires s1 == s0.(trace := s1.trace) && s0.trace <= s1.trace && Has(s, s1, next, e)
    ensures Has(s, s0, next, e)
  {
  }

  /** One turn of a run: the state after it and where it leads. */
  ghost predicate Passed(cfg: Config, env: Env, base: seq<Message>, s0: State, t: Turn, s: State, next: Next,
                         first: bool) {
    Has(s, s0, next, TurnEffect(cfg, env, s0.recovered, ViewOf(base, s0, t), t)) &&
    Starts(s) == Starts(s0) + (if first || t.cancelledAtStart then 0 else 1) &&
    (next.Continue? ==> GoesOn(cfg, ViewOf(base, s0, t), t, s0, s))
  }

  const FRESH := State([], RunTrace.NOTHING, Books(None, 0), false, [], [])
  const OUT_OF_TURNS := Failed(MaxIterations, None)

  /** The run came to state s over the earlier ones; every turn so far went on to the next
      and kept the invariant. */
  ghost predicate OnCourse(cfg: Config, env: Env, base: seq<Message>, turns: nat -> Turn, earlier: seq<State>, s: State)
    decreases |earlier|, 1
  {
    if earlier == [] then s == FRESH else Arrived(cfg, env, base, turns, earlier, s, Continue)
  }

  /** The last turn led here from a run on its course. */
  ghost predicate Arrived(cfg: Config, env: Env, base: seq<Message>, turns: nat -> Turn, earlier: seq<State>,
                          s: State, next: Next)
    requires earlier != []
    decreases |earlier|, 0
  {
    var n := |earlier| - 1;
    OnCourse(cfg, env, base, turns, earlier[..n], earlier[n]) &&
    Passed(cfg, env, base, earlier[n], turns(n), s, next, n == 0) &&
    (if next.Continue? then Inv(env, s) else Ended(cfg, env, s, next.outcome))
  }

  /** The run took its turns one by one, and only the last one left the loop, unless it ran
      out of turns. */
  ghost predicate Course(cfg: Config, env: Env, base: seq<Message>, turns: nat -> Turn, earlier: seq<State>, s: State,
                         outcome: Outcome) {
    && |earlier| <= cfg.maxIterations
    && if outcome == OUT_OF_TURNS then |earlier| == cfg.maxIterations && OnCourse(cfg, env, base, turns, earlier, s)
       else earlier != [] && Arrived(cfg, env, base, turns, earlier, s, Exit(outcome))
  }

  /** No turn by itself runs out of turns. */
  lemma TurnsDoNotRunOut(cfg: Config, env: Env, recovered: bool, view: seq<Message>, t: Turn)
    ensures TurnEffect(cfg, env, recovered, view, t).next != Exit(OUT_OF_TURNS)
  {
  }

  lemma OnCourseInv(cfg: Config, env: Env, base: seq<Message>, turns: nat -> Turn, earlier: seq<State>, s: State)
    requires OnCourse(cfg, env, base, turns, earlier, s)
    ensures Inv(env, s)
  {
  }

  lemma CourseEnds(cfg: Config, env: Env, base: seq<Message>, turns: nat -> Turn, earlier: seq<State>, s: State,
                   outcome: Outcome)
    requires Course(cfg, env, base, turns, earlier, s, outcome) && outcome != OUT_OF_TURNS
    ensures Ended(cfg, env, s, outcome)
  {
  }

  lemma Arrives(cfg: Config, env: Env, base: seq<Message>, turns: nat -> Turn, earlier: seq<State>, s: State,
                next: Next, n: nat)
    requires |earlier| == n + 1 && OnCourse(cfg, env, base, turns, earlier[..n], earlier[n])
    requires Passed(cfg, env, base, earlier[n], turns(n), s, next, n == 0)
    requires if next.Continue? then Inv(env, s) else Ended(cfg, env, s, next.outcome)
    ensures Arrived(cfg, env, base, turns, earlier, s, next)
  {
  }

  lemma NotOutOfTurns(cfg: Config, env: Env, base: seq<Message>, s0: State, t: Turn, s: State, next: Next, first: bool)
    requires Passed(cfg, env, base, s0, t, s, next, first)
    ensures next != Exit(OUT_OF_TURNS)
  {
    TurnsDoNotRunOut(cfg, env, s0.recovered, ViewOf(base, s0, t), t);
  }

  /** One turn more on the course, or off it. */
  lemma TurnTaken(cfg: Config, env: Env, base: seq<Message>, turns: nat -> Turn, earlier0: seq<State>, s0: State,
                  s: State, next: Next)
    returns (earlier: seq<State>)
    requires |earlier0| < cfg.maxIterations && OnCourse(cfg, env, base, turns, earlier0, s0)
    requires Passed(cfg, env, base, s0, turns(|earlier0|), s, next, |earlier0| == 0)
    requires if next.Continue? then Inv(env, s) else Ended(cfg, env, s, next.outcome)
    ensures earlier == earlier0 + [s0]
    ensures next.Continue? ==> OnCourse(cfg, env, base, turns, earlier, s)
    ensures next.Exit? ==> next.outcome != OUT_OF_TURNS && Course(cfg, env, base, turns, earlier, s, next.outcome)
  {
    NotOutOfTurns(cfg, env, base, s0, turns(|earlier0|), s, next, |earlier0| == 0);
    earlier := earlier0 + [s0];
    assert earlier[..|earlier0|] == earlier0;
    Arrives(cfg, env, base, turns, earlier, s, next, |earlier0|);
  }

  method TakeTurn(cfg: Config, env: Env, base: seq<Message>, turns: nat -> Turn, s0: State, iter: nat,
                  ghost earlier0: seq<State>)
    returns (s: State, next: Next, ghost earlier: seq<State>)
    requires Assembled(turns(iter)) && |earlier0| == iter < cfg.maxIterations &&
             OnCourse(cfg, env, base, turns, earlier0, s0)
    ensures earlier == earlier0 + [s0]
    ensures next.Continue? ==> OnCourse(cfg, env, base, turns, earlier, s)
    ensures next.Exit? ==> next.outcome != OUT_OF_TURNS && Course(cfg, env, base, turns, earlier, s, next.outcome)
  {
    OnCourseInv(cfg, env, base, turns, earlier0, s0);
    s, next := Iterate(cfg, env, base, s0, turns(iter), iter);
    earlier := TurnTaken(cfg, env, base, turns, earlier0, s0, s, next);
  }

  method RunOut(cfg: Config, env: Env, s0: State) returns (s: State, outcome: Outcome)
    requires Inv(env, s0)
    ensures outcome == OUT_OF_TURNS && Ended(cfg, env, s, outcome) && s.produced == s0.produced &&
            s.executed == s0.executed && Keeps(s, s0)
  {
    var next;
    s, next := FailWith(cfg, env, s0, None, MaxIterations);
    outcome := next.outcome;
  }

  /** Main result: for every provider, hook, client and cancellation behaviour, the run ends
      with one terminal frame after one AfterRun pass, every step closed, every call of the
      record answered (unless the client is to answer), and all usage accounted for; and it
      takes exactly the turns the reference prescribes. */
  method Run(cfg: Config, env: Env, history: seq<Message>, turns: nat -> Turn)
    returns (s: State, outcome: Outcome, ghost earlier: seq<State>, ghost last: State)
    requires forall n: nat :: Assembled(turns(n))
    ensures Ended(cfg, env, s, outcome)
    ensures Course(cfg, env, Repair(history), turns, earlier, last, outcome)
    ensures s.produced == last.produced && s.executed == last.executed && Keeps(s, last)
  {
    var base := EnsurePairing(history);
    var next;
    s, next, earlier := RunTurns(cfg, env, base, turns);
    last := s;
    if next.Exit? {
      outcome := next.outcome;
      CourseEnds(cfg, env, base, turns, earlier, s, outcome);
    } else {
      OnCourseInv(cfg, env, base, turns, earlier, s);
      s, outcome := RunOut(cfg, env, s);
    }
  }

  /** The loop itself; `Continue` when the turns are used up. */
  method RunTurns(cfg: Config, env: Env, base: seq<Message>, turns: nat -> Turn)
    returns (s: State, next: Next, ghost earlier: seq<State>)
    requires forall n: nat :: Assembled(turns(n))
    ensures next.Continue? ==> |earlier| == cfg.maxIterations && OnCourse(cfg, env, base, turns, earlier, s)
    ensures next.Exit? ==> next.outcome != OUT_OF_TURNS && Course(cfg, env, base, turns, earlier, s, next.outcome)
  {
    s, next, earlier := FRESH, Continue, [];
    for iter := 0 to cfg.maxIterations
      invariant |earlier| == iter && next.Continue? && OnCourse(cfg, env, base, turns, earlier, s)
    {
      s, next, earlier := TakeTurn(cfg, env, base, turns, s, iter, earlier);
      if next.Exit? {
        return;
      }
    }
  }
}
