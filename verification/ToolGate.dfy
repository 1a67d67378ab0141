/** Authorization and dispatch of one batch of tool calls: the interaction gate and the
    execution screen (internal/agent/loop.go:29-35, 347-370, 1178-1304). */
module ToolGate {
  import opened Provider

  type Args = seq<(string, string)>

  /** `accepts` is the schema check on arguments without the UI description. */
  datatype Tool = Tool(isClient: bool, accepts: Args -> bool)

  datatype Verdict = Verdict(deny: bool, reason: string)

  datatype CallResult = CallResult(content: string, isError: bool)

  /** What the loop is wired to: the registry, the (pure) policy over tool names, and the
      tool chain itself. */
  datatype Env = Env(tools: map<string, Tool>, gate: Option<string -> Verdict>, execute: Call -> CallResult)

  const APPROVAL_PREFIX := "approval required: "
  const ASK_USER := "ask_user"

  predicate IsApprovalReason(reason: string) { APPROVAL_PREFIX <= reason }

  function StripDescription(args: Args): Args {
    if args == [] then [] else
    var rest := StripDescription(args[..|args| - 1]);
    if args[|args| - 1].0 == "description" then rest else rest + [args[|args| - 1]]
  }

  // ---- Interaction gate ------------------------------------------------------------------

  datatype Kind = AskUser | ClientTool | Approval

  datatype Interaction = Interaction(kind: Kind, callId: string, toolName: string, input: Args, batch: seq<Call>)

  predicate Valid(env: Env, c: Call) {
    c.name in env.tools ==> env.tools[c.name].accepts(StripDescription(c.args))
  }

  /** Why a call needs the client before the run can continue, if it does. */
  function GateKind(env: Env, c: Call): Option<Kind> {
    if c.argsError != "" || !Valid(env, c) then None
    else if c.name == ASK_USER then Some(AskUser)
    else if c.name !in env.tools then None
    else if env.tools[c.name].isClient then Some(ClientTool)
    else match env.gate
         case None => None
         case Some(gate) =>
           var v := gate(c.name);
           if v.deny && IsApprovalReason(v.reason) then Some(Approval) else None
  }

  function GatedUpTo(env: Env, calls: seq<Call>, n: nat): seq<Interaction>
    requires n <= |calls|
  {
    if n == 0 then [] else
    var c, before := calls[n - 1], GatedUpTo(env, calls, n - 1);
    match GateKind(env, c)
    case None => before
    case Some(kind) => before + [Interaction(kind, c.id, c.name, c.args, calls)]
  }

  method InteractionGate(env: Env, calls: seq<Call>) returns (gated: seq<Interaction>)
    ensures gated == GatedUpTo(env, calls, |calls|)
  {
    gated := [];
    for n := 0 to |calls|
      invariant gated == GatedUpTo(env, calls, n)
    {
      var c := calls[n];
      if c.argsError != "" {
        continue;
      }
      var registered := c.name in env.tools;
      if registered {
        var ok := env.tools[c.name].accepts(StripDescription(c.args));
        if !ok {
          continue;
        }
      }
      if c.name == ASK_USER {
        gated := gated + [Interaction(AskUser, c.id, c.name, c.args, calls)];
      } else if registered && env.tools[c.name].isClient {
        gated := gated + [Interaction(ClientTool, c.id, c.name, c.args, calls)];
      } else if registered && env.gate.Some? {
        var v := env.gate.value(c.name);
        if v.deny && IsApprovalReason(v.reason) {
          gated := gated + [Interaction(Approval, c.id, c.name, c.args, calls)];
        }
      }
    }
  }

  lemma {:induction false} NothingGated(env: Env, calls: seq<Call>, n: nat)
    requires n <= |calls|
    ensures GatedUpTo(env, calls, n) == [] <==> forall k :: 0 <= k < n ==> GateKind(env, calls[k]).None?
  {
    if n > 0 {
      NothingGated(env, calls, n - 1);
    }
  }

  // ---- Execution screen ----------------------------------------------------------------------

  datatype Screened = Answered(result: CallResult) | Live(call: Call)

  function Screen(env: Env, c: Call): Screened {
    if c.argsError != "" then Answered(CallResult("invalid tool arguments: " + c.argsError, true))
    else if c.name !in env.tools then Answered(CallResult("unknown tool: " + c.name, true))
    else if !Valid(env, c) then Answered(CallResult("invalid tool arguments", true))
    else
      var stripped := c.(args := StripDescription(c.args));
      if env.gate.Some? && env.gate.value(c.name).deny
      then Answered(CallResult("permission denied: " + env.gate.value(c.name).reason, true))
      else Live(stripped)
  }

  /** The result of one call: inline when it is screened out, from the tool otherwise. */
  function ResultOf(env: Env, c: Call): CallResult {
    match Screen(env, c)
    case Answered(r) => r
    case Live(live) => env.execute(live)
  }

  /** The calls of a batch that are executed, in order. */
  function Executed(env: Env, calls: seq<Call>, n: nat): seq<Call>
    requires n <= |calls|
  {
    if n == 0 then [] else
    match Screen(env, calls[n - 1])
    case Answered(_) => Executed(env, calls, n - 1)
    case Live(c) => Executed(env, calls, n - 1) + [c]
  }

  /** Screen the batch, then run the live calls and put each result at its call's place. */
  method Dispatch(env: Env, calls: seq<Call>) returns (results: seq<CallResult>, executed: seq<Call>)
    ensures |results| == |calls| && forall k :: 0 <= k < |calls| ==> results[k] == ResultOf(env, calls[k])
    ensures executed == Executed(env, calls, |calls|)
  {
    var slots := new CallResult[|calls|](_ => CallResult("", false));
    var live: seq<Call>, liveIdx: seq<nat> := [], [];
    for n := 0 to |calls|
      invariant live == Executed(env, calls, n) && |liveIdx| == |live|
      invariant forall j :: 0 <= j < |liveIdx| ==> liveIdx[j] < n && Screen(env, calls[liveIdx[j]]) == Live(live[j])
      invariant forall k :: 0 <= k < n ==>
        (Screen(env, calls[k]).Answered? && slots[k] == ResultOf(env, calls[k])) || k in liveIdx
    {
      match Screen(env, calls[n]) {
        case Answered(r) => slots[n] := r;
        case Live(c) =>
          live, liveIdx := live + [c], liveIdx + [n];
      }
    }
    for j := 0 to |live|
      invariant forall k :: 0 <= k < |calls| ==> slots[k] == ResultOf(env, calls[k]) || k in liveIdx[j..]
    {
      assert liveIdx[j..] == [liveIdx[j]] + liveIdx[j + 1..];
      slots[liveIdx[j]] := env.execute(live[j]);
    }
    results, executed := slots[..], live;
  }

  // ---- What never executes ---------------------------------------------------------------------

  /** A call the loop may execute. */
  predicate Executable(env: Env, c: Call) {
    && c.argsError == "" && c.name in env.tools && c.name != ASK_USER && !env.tools[c.name].isClient
    && env.tools[c.name].accepts(c.args)
    && (env.gate.Some? ==> !env.gate.value(c.name).deny)
  }

  /** Main result: in a batch with nothing gated, only permitted server-side calls with
      valid arguments execute, and no refusal is an approval in disguise. */
  lemma {:induction false} UngatedBatch(env: Env, calls: seq<Call>, n: nat)
    requires n <= |calls| && GatedUpTo(env, calls, |calls|) == []
    ensures forall k :: 0 <= k < |Executed(env, calls, n)| ==> Executable(env, Executed(env, calls, n)[k])
  {
    NothingGated(env, calls, |calls|);
    if n > 0 {
      UngatedBatch(env, calls, n - 1);
      assert GateKind(env, calls[n - 1]).None?;
    }
  }

  lemma NoApprovalRefused(env: Env, calls: seq<Call>, k: nat)
    requires k < |calls| && GatedUpTo(env, calls, |calls|) == []
    requires calls[k].argsError == "" && calls[k].name in env.tools && Valid(env, calls[k])
    requires env.gate.Some? && env.gate.value(calls[k].name).deny
    ensures !IsApprovalReason(env.gate.value(calls[k].name).reason)
    ensures Screen(env, calls[k]).Answered?
  {
    NothingGated(env, calls, |calls|);
  }
}
