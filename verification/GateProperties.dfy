/** What a batch of calls is gated on, executed with, and answered with
    (internal/agent/loop.go:347-370, 1178-1304). */
module GateProperties {
  import opened Provider
  import opened Selections
  import opened ToolGate

  // ---- Arguments without the description ------------------------------------------------

  ghost function EntryAt(args: Args): nat -> bool {
    (k: nat) => k < |args| && args[k].0 != "description"
  }

  ghost function SameEntry(args: Args, kept: Args): (nat, nat) -> bool {
    (j: nat, k: nat) => j < |kept| && k < |args| && kept[j] == args[k]
  }

  /** `kept` are the entries of `args` under other keys than the UI description, in order and
      each once. */
  ghost predicate WithoutDescription(args: Args, kept: Args) {
    exists at :: Positions(at, |args|, EntryAt(args)) && Matched(at, |kept|, SameEntry(args, kept))
  }

  lemma {:induction false} StrippedAt(args: Args) returns (at: seq<nat>)
    ensures Positions(at, |args|, EntryAt(args))
    ensures Matched(at, |StripDescription(args)|, SameEntry(args, StripDescription(args)))
  {
    if args == [] {
      at := [];
    } else {
      var front, n := args[..|args| - 1], |args| - 1;
      at := StrippedAt(front);
      var before, after := StripDescription(front), StripDescription(args);
      at := NextSelected(at, n, EntryAt(front), EntryAt(args), |before|, SameEntry(front, before),
                         SameEntry(args, after));
    }
  }

  lemma Stripped(args: Args)
    ensures WithoutDescription(args, StripDescription(args))
  {
    var at := StrippedAt(args);
  }

  /** There is one way to leave the description out. */
  lemma OneWay(args: Args, a: Args, b: Args)
    requires WithoutDescription(args, a) && WithoutDescription(args, b)
    ensures a == b
  {
    var atA :| Positions(atA, |args|, EntryAt(args)) && Matched(atA, |a|, SameEntry(args, a));
    var atB :| Positions(atB, |args|, EntryAt(args)) && Matched(atB, |b|, SameEntry(args, b));
    OnePositions(atA, atB, |args|, EntryAt(args));
    forall j: nat | j < |a| ensures a[j] == b[j] {
      assert SameEntry(args, a)(j, atA[j]) && SameEntry(args, b)(j, atB[j]);
    }
  }

  /** Arguments without a description stay as they are. */
  lemma {:induction false} NothingToStrip(args: Args)
    requires forall k :: 0 <= k < |args| ==> args[k].0 != "description"
    ensures StripDescription(args) == args
  {
    if args != [] {
      NothingToStrip(args[..|args| - 1]);
    }
  }

  // ---- Executions --------------------------------------------------------------------------

  /** The schema accepts the call's arguments less the description. */
  ghost predicate Accepted(env: Env, c: Call) {
    c.name in env.tools && exists kept :: WithoutDescription(c.args, kept) && env.tools[c.name].accepts(kept)
  }

  /** The call parsed, names a registered tool whose schema accepts its arguments, and no
      policy denies it. */
  ghost predicate Permitted(env: Env, c: Call) {
    c.argsError == "" && Accepted(env, c) && (env.gate.Some? ==> !env.gate.value(c.name).deny)
  }

  /** The call as it is executed: everything but the description. */
  ghost predicate RunsAs(c: Call, live: Call) {
    live.id == c.id && live.name == c.name && live.argsError == c.argsError && WithoutDescription(c.args, live.args)
  }

  lemma AcceptedIs(env: Env, c: Call)
    requires c.name in env.tools
    ensures Accepted(env, c) <==> env.tools[c.name].accepts(StripDescription(c.args))
  {
    Stripped(c.args);
    forall kept | WithoutDescription(c.args, kept) ensures kept == StripDescription(c.args) {
      OneWay(c.args, kept, StripDescription(c.args));
    }
  }

  /** Exactly the permitted calls pass the screen, as they came but for the description. */
  lemma ScreenIs(env: Env, c: Call)
    ensures Permitted(env, c) <==> Screen(env, c).Live?
    ensures Screen(env, c).Live? ==> RunsAs(c, Screen(env, c).call)
    ensures Screen(env, c).Answered? ==> Screen(env, c).result.isError && Screen(env, c).result.content != ""
  {
    Stripped(c.args);
    if c.name in env.tools {
      AcceptedIs(env, c);
    }
  }

  ghost function PermittedAt(env: Env, calls: seq<Call>): nat -> bool {
    (k: nat) => k < |calls| && Permitted(env, calls[k])
  }

  ghost function RunAt(calls: seq<Call>, executed: seq<Call>): (nat, nat) -> bool {
    (j: nat, k: nat) => j < |executed| && k < |calls| && RunsAs(calls[k], executed[j])
  }

  /** Main result: the executed calls of a batch are exactly its permitted calls, in order,
      each with the arguments it came with but for the description. */
  lemma {:induction false} ExecutedExactly(env: Env, calls: seq<Call>, n: nat) returns (at: seq<nat>)
    requires n <= |calls|
    ensures Positions(at, n, PermittedAt(env, calls))
    ensures Matched(at, |Executed(env, calls, n)|, RunAt(calls, Executed(env, calls, n)))
  {
    if n == 0 {
      at := [];
    } else {
      at := ExecutedExactly(env, calls, n - 1);
      ScreenIs(env, calls[n - 1]);
      var before, after := Executed(env, calls, n - 1), Executed(env, calls, n);
      at := NextSelected(at, n - 1, PermittedAt(env, calls), PermittedAt(env, calls), |before|, RunAt(calls, before),
                         RunAt(calls, after));
    }
  }

  ghost predicate Mentions(content: string, what: string) {
    exists before, behind :: content == before + what + behind
  }

  /** A refused call is told why. */
  lemma RefusalSays(env: Env, c: Call)
    ensures c.argsError != "" ==> Mentions(ResultOf(env, c).content, c.argsError)
    ensures c.argsError == "" && c.name !in env.tools ==> Mentions(ResultOf(env, c).content, c.name)
    ensures c.argsError == "" && Accepted(env, c) && env.gate.Some? && env.gate.value(c.name).deny ==>
              Mentions(ResultOf(env, c).content, env.gate.value(c.name).reason)
  {
    if c.argsError != "" {
      assert ResultOf(env, c).content == "invalid tool arguments: " + c.argsError + "";
    } else if c.name !in env.tools {
      assert ResultOf(env, c).content == "unknown tool: " + c.name + "";
    } else {
      AcceptedIs(env, c);
      assert env.gate.Some? ==> "permission denied: " + env.gate.value(c.name).reason ==
                                "permission denied: " + env.gate.value(c.name).reason + "";
    }
  }

  /** Main result: a permitted call is answered with what its execution gave, any other with
      an error that says why. */
  lemma ResultIs(env: Env, c: Call)
    ensures Permitted(env, c) ==> exists live :: RunsAs(c, live) && ResultOf(env, c) == env.execute(live)
    ensures !Permitted(env, c) ==> ResultOf(env, c).isError && ResultOf(env, c).content != ""
  {
    ScreenIs(env, c);
    if Screen(env, c).Live? {
      assert RunsAs(c, Screen(env, c).call);
    }
  }

  // ---- Interactions -----------------------------------------------------------------------------

  /** Why a call waits for the client: it asks the user, it runs in the client, or the policy
      wants an approval. Calls that could never execute do not wait. */
  ghost predicate Waits(env: Env, c: Call, kind: Kind) {
    && c.argsError == "" && (c.name in env.tools ==> Accepted(env, c))
    && match kind
       case AskUser => c.name == "ask_user"
       case ClientTool => c.name != "ask_user" && c.name in env.tools && env.tools[c.name].isClient
       case Approval =>
         c.name != "ask_user" && c.name in env.tools && !env.tools[c.name].isClient && env.gate.Some? &&
         env.gate.value(c.name).deny && "approval required: " <= env.gate.value(c.name).reason
  }

  lemma GateKindIs(env: Env, c: Call)
    ensures GateKind(env, c).Some? <==> exists kind :: Waits(env, c, kind)
    ensures GateKind(env, c).Some? ==> Waits(env, c, GateKind(env, c).value)
  {
    if c.name in env.tools {
      AcceptedIs(env, c);
    }
    assert Waits(env, c, AskUser) ==> GateKind(env, c).Some?;
    assert Waits(env, c, ClientTool) ==> GateKind(env, c).Some?;
    assert Waits(env, c, Approval) ==> GateKind(env, c).Some?;
  }

  ghost function WaitsAt(env: Env, calls: seq<Call>): nat -> bool {
    (k: nat) => k < |calls| && exists kind :: Waits(env, calls[k], kind)
  }

  ghost function GatedAt(env: Env, calls: seq<Call>, gated: seq<Interaction>): (nat, nat) -> bool {
    (j: nat, k: nat) =>
      j < |gated| && k < |calls| && Waits(env, calls[k], gated[j].kind) && gated[j].callId == calls[k].id &&
      gated[j].toolName == calls[k].name && gated[j].input == calls[k].args && gated[j].batch == calls
  }

  /** Main result: the interactions of a batch are exactly its calls that wait for the client,
      in order, each with its reason, its arguments and the whole batch. */
  lemma {:induction false} GatedExactly(env: Env, calls: seq<Call>, n: nat) returns (at: seq<nat>)
    requires n <= |calls|
    ensures Positions(at, n, WaitsAt(env, calls))
    ensures Matched(at, |GatedUpTo(env, calls, n)|, GatedAt(env, calls, GatedUpTo(env, calls, n)))
  {
    if n == 0 {
      at := [];
    } else {
      at := GatedExactly(env, calls, n - 1);
      GateKindIs(env, calls[n - 1]);
      var before, after := GatedUpTo(env, calls, n - 1), GatedUpTo(env, calls, n);
      at := NextSelected(at, n - 1, WaitsAt(env, calls), WaitsAt(env, calls), |before|, GatedAt(env, calls, before),
                         GatedAt(env, calls, after));
    }
  }
}
