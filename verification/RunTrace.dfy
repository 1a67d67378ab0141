/** The frames a run attempts to emit, and what can be read off a trace of them
    (internal/agent/loop.go:76-147, 717-800). */
module RunTrace {
  import opened Provider
  import opened ToolGate
  import opened Selections

  datatype Frame =
    | StepStart
    | StepFinish(reason: string, usage: Option<Usage>, continued: bool)
    | AssistantMessage(msg: Message, usage: Option<Usage>)
    | ToolMessage(msg: Message)
    | ToolResultFrame(id: string, name: string, content: string, isError: bool)
    | OverflowRecovery(usage: Option<Usage>)
    | Interrupt(interaction: Interaction)
    | AfterRunPass
    | DoneFrame
    | ErrorFrame
    | CancelledFrame

  predicate Terminal(f: Frame) {
    f.DoneFrame? || f.ErrorFrame? || f.CancelledFrame?
  }

  predicate StartsOrEnds(f: Frame) {
    f.StepStart? || Terminal(f)
  }

  /** Token counts as a run accumulates them. */
  datatype Spent = Spent(input: nat, output: nat, cacheRead: nat, cacheWrite: nat) {
    function Plus(u: Option<Usage>): Spent {
      match u
      case None => this
      case Some(v) => Spent(input + v.input, output + v.output, cacheRead + v.cacheRead, cacheWrite + v.cacheWrite)
    }
  }

  const NOTHING := Spent(0, 0, 0, 0)

  /** What a trace amounts to. */
  datatype Tally = Tally(
    booked: Spent,           // usage carried by message and recovery frames
    messages: seq<Message>,  // messages handed to the durable record
    recoveries: nat,
    stepOpen: bool,          // a started step has not been finished
    bracketed: bool,         // no step was left open by a start or a terminal frame
    starts: nat,             // steps started
    passes: nat,             // AfterRun passes
    terminals: nat,
    streamed: seq<(string, CallResult)>,  // results streamed since the last message of results
    told: bool)              // every message of results told just those streamed for it

  /** A result as the record shows it: an empty one is spelled out. */
  predicate Shows(b: Block, id: string, result: CallResult) {
    b.ToolResult? && b.resultId == id && b.isError == result.isError &&
    (result.content != "" ==> b.toolContent == result.content) &&
    (result.content == "" ==> b.toolContent == "(no output)")
  }

  /** The message tells the results streamed, one by one. */
  predicate TellsStreamed(m: Message, streamed: seq<(string, CallResult)>) {
    |m.content| == |streamed| && forall k :: 0 <= k < |streamed| ==> Shows(m.content[k], streamed[k].0, streamed[k].1)
  }

  function Feed(t: Tally, f: Frame): Tally {
    match f
    case StepStart => t.(bracketed := t.bracketed && !t.stepOpen, stepOpen := true, starts := t.starts + 1)
    case StepFinish(_, _, _) => t.(stepOpen := false)
    case AssistantMessage(msg, usage) => t.(messages := t.messages + [msg], booked := t.booked.Plus(usage))
    case ToolMessage(msg) =>
      t.(messages := t.messages + [msg], streamed := [], told := t.told && TellsStreamed(msg, t.streamed))
    case ToolResultFrame(id, _, content, isError) =>
      t.(streamed := t.streamed + [(id, CallResult(content, isError))])
    case OverflowRecovery(usage) => t.(recoveries := t.recoveries + 1, booked := t.booked.Plus(usage))
    case AfterRunPass => t.(passes := t.passes + 1)
    case DoneFrame => Closing(t)
    case ErrorFrame => Closing(t)
    case CancelledFrame => Closing(t)
    case _ => t
  }

  function Closing(t: Tally): Tally {
    t.(bracketed := t.bracketed && !t.stepOpen, terminals := t.terminals + 1)
  }

  function TallyOf(trace: seq<Frame>): Tally {
    if trace == [] then Tally(NOTHING, [], 0, false, true, 0, 0, 0, [], true)
    else Feed(TallyOf(trace[..|trace| - 1]), trace[|trace| - 1])
  }

  // ---- What the tally says about single frames ---------------------------------------------

  lemma {:induction false} NoTerminals(trace: seq<Frame>)
    requires TallyOf(trace).terminals == 0
    ensures forall k :: 0 <= k < |trace| ==> !Terminal(trace[k])
  {
    if trace != [] {
      NoTerminals(trace[..|trace| - 1]);
    }
  }

  /** A trace that ends with its only terminal frame has none before it. */
  lemma OneTerminal(trace: seq<Frame>)
    requires trace != [] && Terminal(trace[|trace| - 1]) && TallyOf(trace).terminals == 1
    ensures forall k :: 0 <= k < |trace| - 1 ==> !Terminal(trace[k])
  {
    NoTerminals(trace[..|trace| - 1]);
  }

  /** In a bracketed trace a step is finished before the next one starts and before the run
      ends. */
  lemma {:induction false} StepsClosed(trace: seq<Frame>, i: nat, j: nat)
    requires TallyOf(trace).bracketed && i < j < |trace|
    requires trace[i].StepStart? && StartsOrEnds(trace[j])
    ensures exists k :: i < k < j && trace[k].StepFinish?
  {
    if j == |trace| - 1 {
      var init := trace[..j];
      StepOpenSince(init, i);
    } else {
      StepsClosed(trace[..|trace| - 1], i, j);
      var k :| i < k < j && trace[..|trace| - 1][k].StepFinish?;
      assert trace[k].StepFinish?;
    }
  }

  lemma {:induction false} StepOpenSince(trace: seq<Frame>, i: nat)
    requires i < |trace| && trace[i].StepStart? && !TallyOf(trace).stepOpen
    ensures exists k :: i < k < |trace| && trace[k].StepFinish?
  {
    var n := |trace| - 1;
    if !trace[n].StepFinish? {
      StepOpenSince(trace[..n], i);
      var k :| i < k < n && trace[..n][k].StepFinish?;
      assert trace[k].StepFinish?;
    }
  }

  // ---- What the tally counts ---------------------------------------------------------------

  /** How many frames of a kind the trace has. */
  ghost function HowMany(trace: seq<Frame>, p: Frame -> bool): nat {
    |set k: nat | k < |trace| && p(trace[k])|
  }

  predicate OpensStep(f: Frame) { f.StepStart? }

  predicate IsPass(f: Frame) { f.AfterRunPass? }

  predicate IsRecovery(f: Frame) { f.OverflowRecovery? }

  predicate EndsRun(f: Frame) { f.DoneFrame? || f.ErrorFrame? || f.CancelledFrame? }

  /** The tally counts frames: steps opened, AfterRun passes, recoveries, terminal frames. */
  lemma {:induction false} CountsAre(trace: seq<Frame>)
    ensures var t := TallyOf(trace);
            t.starts == HowMany(trace, OpensStep) && t.passes == HowMany(trace, IsPass) &&
            t.recoveries == HowMany(trace, IsRecovery) && t.terminals == HowMany(trace, EndsRun)
  {
    OneMore(trace, OpensStep);
    OneMore(trace, IsPass);
    OneMore(trace, IsRecovery);
    OneMore(trace, EndsRun);
    if trace != [] {
      CountsAre(trace[..|trace| - 1]);
    }
  }

  lemma OneMore(trace: seq<Frame>, p: Frame -> bool)
    ensures trace == [] ==> HowMany(trace, p) == 0
    ensures trace != [] ==>
              HowMany(trace, p) == HowMany(trace[..|trace| - 1], p) + if p(trace[|trace| - 1]) then 1 else 0
  {
    var all := set k: nat | k < |trace| && p(trace[k]);
    if trace == [] {
      assert all == {};
    } else {
      var n := |trace| - 1;
      var before := set k: nat | k < n && p(trace[..n][k]);
      assert forall k: nat :: k in all <==> k in before || (k == n && p(trace[n]));
      assert all == if p(trace[n]) then before + {n} else before;
    }
  }

  ghost function MessageAt(trace: seq<Frame>): nat -> bool {
    (k: nat) => k < |trace| && (trace[k].AssistantMessage? || trace[k].ToolMessage?)
  }

  ghost function CarriedAt(trace: seq<Frame>, messages: seq<Message>): (nat, nat) -> bool {
    (j: nat, k: nat) =>
      j < |messages| && k < |trace| && (trace[k].AssistantMessage? || trace[k].ToolMessage?) &&
      trace[k].msg == messages[j]
  }

  /** The messages of the tally are those its frames carry, in order. */
  lemma {:induction false} MessagesAre(trace: seq<Frame>) returns (at: seq<nat>)
    ensures Positions(at, |trace|, MessageAt(trace))
    ensures Matched(at, |TallyOf(trace).messages|, CarriedAt(trace, TallyOf(trace).messages))
  {
    if trace == [] {
      at := [];
    } else {
      var front, n := trace[..|trace| - 1], |trace| - 1;
      at := MessagesAre(front);
      var before, after := TallyOf(front).messages, TallyOf(trace).messages;
      at := NextSelected(at, n, MessageAt(front), MessageAt(trace), |before|, CarriedAt(front, before),
                         CarriedAt(trace, after));
    }
  }

  /** The usage a frame carries. */
  function UsageIn(f: Frame): Usage {
    match f
    case AssistantMessage(_, Some(u)) => u
    case OverflowRecovery(Some(u)) => u
    case _ => Usage(0, 0, 0, 0, 0)
  }

  function SumOf(trace: seq<Frame>, count: Usage -> nat): nat {
    if trace == [] then 0 else SumOf(trace[..|trace| - 1], count) + count(UsageIn(trace[|trace| - 1]))
  }

  function InputOf(u: Usage): nat { u.input }

  function OutputOf(u: Usage): nat { u.output }

  function ReadOf(u: Usage): nat { u.cacheRead }

  function WriteOf(u: Usage): nat { u.cacheWrite }

  /** The usage of the tally is the sum over the frames that carry one. */
  lemma {:induction false} BookedIsSum(trace: seq<Frame>)
    ensures var b := TallyOf(trace).booked;
            b.input == SumOf(trace, InputOf) && b.output == SumOf(trace, OutputOf) &&
            b.cacheRead == SumOf(trace, ReadOf) && b.cacheWrite == SumOf(trace, WriteOf)
  {
    if trace != [] {
      BookedIsSum(trace[..|trace| - 1]);
    }
  }

  // ---- What was streamed is what was told --------------------------------------------------------

  /** Frame k streams a result, and no message of results comes after it. */
  ghost function SinceTold(trace: seq<Frame>): nat -> bool {
    (k: nat) => k < |trace| && trace[k].ToolResultFrame? && forall m :: k < m < |trace| ==> !trace[m].ToolMessage?
  }

  ghost function StreamedAs(trace: seq<Frame>, streamed: seq<(string, CallResult)>): (nat, nat) -> bool {
    (j: nat, k: nat) =>
      j < |streamed| && k < |trace| && trace[k].ToolResultFrame? &&
      streamed[j] == (trace[k].id, CallResult(trace[k].content, trace[k].isError))
  }

  lemma {:induction false} StreamedSince(trace: seq<Frame>) returns (at: seq<nat>)
    ensures Positions(at, |trace|, SinceTold(trace))
    ensures Matched(at, |TallyOf(trace).streamed|, StreamedAs(trace, TallyOf(trace).streamed))
  {
    if trace == [] || trace[|trace| - 1].ToolMessage? {
      at := [];
    } else {
      var front, n := trace[..|trace| - 1], |trace| - 1;
      at := StreamedSince(front);
      StillSince(trace, front);
      at := NextSelected(at, n, SinceTold(front), SinceTold(trace), |TallyOf(front).streamed|,
                         StreamedAs(front, TallyOf(front).streamed), StreamedAs(trace, TallyOf(trace).streamed));
    }
  }

  lemma StillSince(trace: seq<Frame>, front: seq<Frame>)
    requires trace != [] && front == trace[..|trace| - 1] && !trace[|trace| - 1].ToolMessage?
    ensures forall k: nat :: k < |front| ==> SinceTold(front)(k) == SinceTold(trace)(k)
  {
  }

  /** Block j of the message shows the result that frame k streamed. */
  ghost function ShownBy(trace: seq<Frame>, m: Message): (nat, nat) -> bool {
    (j: nat, k: nat) =>
      j < |m.content| && k < |trace| && trace[k].ToolResultFrame? &&
      Shows(m.content[j], trace[k].id, CallResult(trace[k].content, trace[k].isError))
  }

  /** Main result: every message of results shows, block by block, exactly the results streamed
      to the client since the one before. */
  lemma {:induction false} ResultsAgree(trace: seq<Frame>, i: nat) returns (at: seq<nat>)
    requires TallyOf(trace).told && i < |trace| && trace[i].ToolMessage?
    ensures Positions(at, i, SinceTold(trace[..i]))
    ensures Matched(at, |trace[i].msg.content|, ShownBy(trace[..i], trace[i].msg))
  {
    var front := trace[..|trace| - 1];
    if i < |trace| - 1 {
      at := ResultsAgree(front, i);
      assert front[..i] == trace[..i];
    } else {
      at := StreamedSince(front);
      AllShown(front, trace[i].msg, at, TallyOf(front).streamed);
    }
  }

  lemma AllShown(front: seq<Frame>, m: Message, at: seq<nat>, streamed: seq<(string, CallResult)>)
    requires TellsStreamed(m, streamed) && Matched(at, |streamed|, StreamedAs(front, streamed))
    ensures Matched(at, |m.content|, ShownBy(front, m))
  {
    forall j: nat | j < |m.content| ensures ShownBy(front, m)(j, at[j]) {
      assert StreamedAs(front, streamed)(j, at[j]);
    }
  }
}
