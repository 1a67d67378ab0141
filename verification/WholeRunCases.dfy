/** Two runs that lose the start of their view inside an exchange with a tool
    (internal/agent/loop.go:424-433, 802-843, internal/agent/middleware.go:404-446). */
module WholeRunCases {
  import opened Provider
  import opened Pairing
  import opened PairingSpec
  import opened PairingProperties
  import opened Rounds
  import opened RoundsProperties
  import opened Compress
  import opened CompressProperties
  import opened Middleware
  import opened OverflowProperties
  import opened StreamAssembly
  import opened Attempts
  import opened ToolGate
  import Loop = AgentLoop
  import opened RunProperties
  import opened WholeRun
  import opened WholeRunProperties
  import opened WholeRunViews

  // ---- A run that drops twice ------------------------------------------------------------------------------

  /** A question, an exchange with a tool, and a follow-up. */
  function Asked(id: string): seq<Message> {
    [TextMessage(RoleUser, "a"),
     Message(RoleAssistant, [ToolUse(id, "t", [], "")]), Message(RoleUser, [ToolResult(id, "r", false)]),
     TextMessage(RoleUser, "b")]
  }

  const NO_USAGE := Usage(0, 0, 0, 0, 0)

  /** The reply that is cut off after one word. */
  const CUT_OFF := [BlockStart(0, Some(Text("", false))), BlockDelta(0, "w", ""),
                    MessageStop(StopMaxTokens, Some(NO_USAGE))]
  const CUT_OFF_READ := Reading(map[], [Text("w", false)], [], TurnEnd(StopMaxTokens, Some(NO_USAGE)), [TextFrame("w")])

  /** The provider finds the first request too large, and cuts its reply to the next one off. */
  function TooLarge(): Around {
    Around(NO_TURN, 0, _ => None,
           (k: nat, view: seq<Message>) => if k == 0 then Source.Refused(true) else Streams(CUT_OFF, false),
           k => Client(_ => false, _ => true))
  }

  lemma AskedIds(id: string)
    ensures var all := Asked(id);
            UseIds(all[0].content) == [] && UseIds(all[1].content) == [id] && UseIds(all[2].content) == [] &&
            UseIds(all[3].content) == [] && ResultIds(all[0].content) == [] && ResultIds(all[1].content) == [] &&
            ResultIds(all[2].content) == [id] && ResultIds(all[3].content) == []
  {
    OneBlockIds(Text("a", false));
    OneBlockIds(ToolUse(id, "t", [], ""));
    OneBlockIds(ToolResult(id, "r", false));
    OneBlockIds(Text("b", false));
  }

  lemma AskedUses(id: string)
    ensures AllUses(Asked(id)) == [id]
  {
    var all := Asked(id);
    AskedIds(id);
    assert all[..4] == all && all[..3][..2] == all[..2] && all[..2][..1] == all[..1] && all[..1][..0] == [];
    assert all[..4][..3] == all[..3];
    assert AllUses(all[..1]) == [];
    assert AllUses(all[..2]) == [id];
    assert AllUses(all[..3]) == [id];
  }

  lemma AskedPaired(id: string)
    requires id != ""
    ensures Paired(Asked(id))
  {
    var all := Asked(id);
    AskedIds(id);
    AskedUses(id);
    forall i | 0 <= i < 4 ensures StrictAt(all, i) {
    }
  }

  lemma AskedRounds(id: string)
    requires id != ""
    ensures RoundsFrom(Asked(id), 0) == [Round(0, 1), Round(1, 3), Round(3, 4)]
  {
    var all := Asked(id);
    AskedPaired(id);
    AskedIds(id);
    StrictRoundEnd(all, 0);
    StrictRoundEnd(all, 1);
    StrictRoundEnd(all, 3);
    assert RoundsFrom(all, 4) == [];
    assert RoundsFrom(all, 3) == [Round(3, 4)];
    assert RoundsFrom(all, 1) == [Round(1, 3)] + RoundsFrom(all, 3);
  }

  lemma AskedRetry(id: string)
    requires id != ""
    ensures RoundCount(Asked(id)) == 3 && Remainder(Asked(id)) == Asked(id)[1..]
    ensures RetryStep(Asked(id), Books(None, 0)) == Retried(Asked(id)[1..], Books(None, 1))
  {
    AskedPaired(id);
    AskedRounds(id);
    assert |"a"| < |SUMMARY_PREFIX|;
    assert !IsSummary(Asked(id)[0]);
    DropLeavesRemainder(Asked(id));
  }

  lemma CutOffOpen(n: nat, i: int)
    requires n <= 3
    ensures OpenAt(CUT_OFF, n, i) == if n > 0 && i == 0 then Some(0) else None
  {
    if n > 0 {
      CutOffOpen(n - 1, i);
    }
  }

  lemma CutOffEnd()
    ensures EndAfter(CUT_OFF, 3) == TurnEnd(StopMaxTokens, Some(NO_USAGE))
  {
    assert EndAfter(CUT_OFF, 0) == TurnEnd(StopUnknown, None);
    assert EndAfter(CUT_OFF, 1) == EndAfter(CUT_OFF, 0);
    assert EndAfter(CUT_OFF, 2) == EndAfter(CUT_OFF, 1);
  }

  lemma CutOffWhole(decode: Decoder)
    ensures ReadWhole(Streams(CUT_OFF, false), decode, CUT_OFF_READ, [0])
    ensures forall n :: 0 <= n < |CUT_OFF| ==> Legal(CUT_OFF, n)
  {
    forall i ensures i in [0] <==> OpenAt(CUT_OFF, |CUT_OFF|, i).Some? {
      CutOffOpen(3, i);
    }
    forall n | 0 <= n < |CUT_OFF| ensures Legal(CUT_OFF, n) {
      CutOffOpen(n, 0);
    }
    CutOffOpen(3, 0);
    CutOffEnd();
    NothingClosed(CUT_OFF, 3, decode);
    assert Deltas(CUT_OFF, 0, 1, 1) == "" && Deltas(CUT_OFF, 0, 1, 2) == "w" && Deltas(CUT_OFF, 0, 1, 3) == "w";
    assert BlockOver(CUT_OFF, 0, 3, decode) == Text("w", false);
    assert [0][..0] == [] && OpenBlocks(CUT_OFF, [], decode) == [];
    CutOffFrames(decode);
  }

  lemma {:induction false} NothingClosed(events: seq<Event>, n: nat, decode: Decoder)
    requires n <= |events| && forall k :: 0 <= k < n ==> !events[k].BlockStop?
    ensures ClosedBlocks(events, n, decode) == []
  {
    if n > 0 {
      NothingClosed(events, n - 1, decode);
    }
  }

  lemma CutOffFrames(decode: Decoder)
    ensures Frames(CUT_OFF, 3, decode) == [TextFrame("w")] && UseFramesOf([Text("w", false)]) == []
  {
    CutOffOpen(1, 0);
    assert Frames(CUT_OFF, 0, decode) == [] && Frames(CUT_OFF, 1, decode) == [];
    assert Frames(CUT_OFF, 2, decode) == [TextFrame("w")];
    assert [Text("w", false)][..0] == [] && UseFramesOf([]) == [];
  }

  /** A stream that keeps the contract is read to its end by a client that takes everything. */
  lemma PatientReads(events: seq<Event>, client: Client, emitted: seq<Frame>, decode: Decoder)
    requires Patient(client) && forall n :: 0 <= n < |events| ==> Legal(events, n)
    ensures Halts(events, client, emitted, None, decode)
  {
    forall n: nat | n <= |events| ensures HaltAt(events, n, client, decode) == None {
      assert n < |events| ==> Legal(events, n);
    }
  }

  /** The two tries of the call. */
  function BothTries(id: string): seq<Try> {
    [Try(Outgoing(Asked(id), Books(None, 0)), Overflow(false), []),
     Try(Outgoing(Asked(id)[1..], Books(None, 1)), Success, [TextFrame("w")])]
  }

  lemma BothTried(id: string, decode: Decoder)
    requires id != ""
    ensures Trail(Attempts.Sent(BothTries(id))) && Tries(BothTries(id), TooLarge().model, TooLarge().clients, decode)
  {
    AskedRetry(id);
    BothReported(decode);
    assert Retries(Attempts.Sent(BothTries(id)), 0);
  }

  lemma BothReported(decode: Decoder)
    ensures Reported(Source.Refused(true), TooLarge().clients(0), decode, [], Overflow(false))
    ensures Reported(Streams(CUT_OFF, false), TooLarge().clients(1), decode, [TextFrame("w")], Success)
  {
    CutOffWhole(decode);
    PatientReads(CUT_OFF, TooLarge().clients(1), [TextFrame("w")], decode);
  }

  /** The model call: refused, then cut off. */
  lemma DroppedOnce(setup: Setup, id: string) returns (t: Loop.Turn, m: Made)
    requires id != "" && setup.compress.window <= 0
    ensures CallMade(setup, TooLarge(), Asked(id), Books(None, 0), t, m)
    ensures t == NO_TURN.(attempt := Some(Loop.ModelResult([Text("w", false)], [], StopMaxTokens, Some(NO_USAGE))),
                          booksAfter := Books(None, 1))
    ensures SentLast(m) == Asked(id)[1..]
  {
    BothTried(id, setup.decode);
    CutOffWhole(setup.decode);
    m := Made(false, BothTries(id), CUT_OFF_READ, [0]);
    t := TooLarge().turn.(attempt := WholeRun.ResultOf(Success, CUT_OFF_READ), booksAfter := Books(None, 1));
  }

  lemma AskedBroken(id: string)
    requires id != ""
    ensures Repair(Asked(id)) == Asked(id) && Repair(Asked(id)[2..]) != Asked(id)[2..]
  {
    AskedPaired(id);
    AskedIds(id);
    FixedPoints(Asked(id));
    CutPaired(Asked(id), 2);
    FixedPoints(Asked(id)[2..]);
  }

  /** A truncation is recovered from once, while there is a round to drop. */
  lemma RecoveryEffect(cfg: Loop.Config, env: Env, view: seq<Message>, t: Loop.Turn)
    requires CallsModel(t) && Loop.Recovers(cfg, t) && !DropForOverflow(view).Refused?
    ensures Loop.TurnEffect(cfg, env, false, view, t) ==
            Loop.Effect(Loop.Continue, [], [], t.attempt.value.usage)
  {
  }

  lemma CutOffUnder(cfg: Loop.Config, t: Loop.Turn)
    requires cfg.maxTokens > 0
    requires t.attempt == Some(Loop.ModelResult([Text("w", false)], [], StopMaxTokens, Some(NO_USAGE)))
    ensures Loop.Recovers(cfg, t)
  {
    assert [Text("w", false)][..0] == [] && Loop.DropEmptyBlocks([]) == [];
    assert Loop.DropEmptyBlocks([Text("w", false)]) == [Text("w", false)];
  }

  /** The truncated turn is recovered from, dropping the oldest round of the loop's view. */
  lemma CutOffRecovers(setup: Setup, all: seq<Message>, t: Loop.Turn)
    requires setup.loop.maxTokens > 0 && Paired(all) && RoundCount(all) > 1
    requires t == NO_TURN.(attempt := Some(Loop.ModelResult([Text("w", false)], [], StopMaxTokens, Some(NO_USAGE))),
                           booksAfter := Books(None, 1))
    ensures Loop.TurnEffect(setup.loop, setup.env, false, all, t) ==
            Loop.Effect(Loop.Continue, [], [], Some(NO_USAGE))
    ensures Loop.BooksNext(setup.loop, all, t) == Books(None, 1 + Oldest(all))
  {
    CutOffUnder(setup.loop, t);
    DropLeavesRemainder(all);
    var next := LoopDropsOldest(all, 1);
    RecoveryEffect(setup.loop, setup.env, all, t);
  }

  /** The smallest run whose next request is malformed: the retry drops the question, and the
      loop, which still holds it in its own view, drops as much again for the truncation. The
      request then starts with the answer to a call that is gone. */
  lemma DroppedTwice(setup: Setup, id: string) returns (t: Loop.Turn, m: Made)
    requires id != "" && setup.compress.window <= 0 && setup.loop.maxTokens > 0
    ensures Repair(Asked(id)) == Asked(id)
    ensures TurnMade(setup, Asked(id), TooLarge(), Loop.FRESH, t, m) && Stays(setup, Asked(id), Loop.FRESH, t)
    ensures forall s :: Grown(setup, Asked(id), Loop.FRESH, t, s) ==>
              s.produced == [] && Rebuilt(Asked(id), s.books.viewDropped) == Asked(id)[2..]
    ensures Repair(Asked(id)[2..]) != Asked(id)[2..]
  {
    t, m := DroppedOnce(setup, id);
    AskedBroken(id);
    AskedPaired(id);
    AskedRetry(id);
    FirstViewIs(Asked(id), t);
    CutOffRecovers(setup, Asked(id), t);
  }

  lemma FirstViewIs(all: seq<Message>, t: Loop.Turn)
    requires t.injected == []
    ensures Loop.ViewOf(all, Loop.FRESH, t) == all && Loop.FRESH.books == Books(None, 0) && !Loop.FRESH.recovered
  {
    assert all + [] == all;
  }

  // ---- A run that splits an exchange ---------------------------------------------------------------------

  /** A user message that looks like a summary, an exchange with a tool, and a follow-up. */
  function Marked(text: string, id: string): seq<Message> {
    [SummaryMessage(text),
     Message(RoleAssistant, [ToolUse(id, "t", [], "")]), Message(RoleUser, [ToolResult(id, "r", false)]),
     TextMessage(RoleUser, "b")]
  }

  /** A reply that calls a tool. */
  function Calling(id: string): seq<Event> {
    [BlockStart(0, Some(ToolUse(id, "t", [], ""))), MessageStop(StopToolUse, None)]
  }

  function CallingRead(id: string): Reading {
    Reading(map[], [ToolUse(id, "t", [], "")], [Call(id, "t", [], "")], TurnEnd(StopToolUse, None),
            [ToolArgsFrame(id, "t", ""), ToolUseFrame(id, "t", [])])
  }

  /** The provider finds the first request too large, and answers the next one with a call. */
  function ThenCalls(id: string): Around {
    Around(NO_TURN, 0, _ => None,
           (k: nat, view: seq<Message>) => if k == 0 then Source.Refused(true) else Streams(Calling(id), false),
           k => Client(_ => false, _ => true))
  }

  lemma MarkedIds(text: string, id: string)
    ensures var all := Marked(text, id);
            UseIds(all[0].content) == [] && UseIds(all[1].content) == [id] && UseIds(all[2].content) == [] &&
            UseIds(all[3].content) == [] && ResultIds(all[0].content) == [] && ResultIds(all[1].content) == [] &&
            ResultIds(all[2].content) == [id] && ResultIds(all[3].content) == []
  {
    OneBlockIds(Text(SUMMARY_PREFIX + text, false));
    AskedIds(id);
  }

  lemma MarkedPaired(text: string, id: string)
    requires id != ""
    ensures Paired(Marked(text, id)) && IsSummary(Marked(text, id)[0])
  {
    var all := Marked(text, id);
    MarkedIds(text, id);
    MarkedUses(text, id);
    forall i | 0 <= i < 4 ensures StrictAt(all, i) {
    }
  }

  lemma MarkedUses(text: string, id: string)
    ensures AllUses(Marked(text, id)) == [id]
  {
    var all, asked := Marked(text, id), Asked(id);
    MarkedIds(text, id);
    AskedIds(id);
    AskedUses(id);
    SameUsesSame(all, asked, 4);
    assert all[..4] == all && asked[..4] == asked;
  }

  lemma {:induction false} SameUsesSame(a: seq<Message>, b: seq<Message>, n: nat)
    requires n <= |a| && n <= |b| && forall i :: 0 <= i < n ==> UseIds(a[i].content) == UseIds(b[i].content)
    ensures AllUses(a[..n]) == AllUses(b[..n])
  {
    if n > 0 {
      SameUsesSame(a, b, n - 1);
      assert a[..n][..n - 1] == a[..n - 1] && b[..n][..n - 1] == b[..n - 1];
    }
  }

  lemma MarkedRetry(text: string, id: string)
    requires id != ""
    ensures Splits(Marked(text, id))
    ensures RetryStep(Marked(text, id), Books(None, 0)) ==
            Retried([Marked(text, id)[0], Marked(text, id)[3]], Books(None, 2))
  {
    var all := Marked(text, id);
    MarkedPaired(text, id);
    MarkedIds(text, id);
    StrictRoundEnd(all, 0);
    StrictRoundEnd(all, 1);
    StrictRoundEnd(all, 3);
    assert RoundsFrom(all, 4) == [];
    assert RoundsFrom(all, 3) == [Round(3, 4)];
    assert RoundsFrom(all, 1) == [Round(1, 3)] + RoundsFrom(all, 3);
    DropLeavesRemainder(all);
    assert all[3..] == [all[3]] && Remainder(all) == [all[0], all[3]];
  }

  lemma CallingBlocks(id: string, decode: Decoder)
    ensures var events := Calling(id);
            OpenAt(events, 2, 0) == Some(0) && ClosedBlocks(events, 2, decode) == [] && AllOpen(events, [0]) &&
            OpenBlocks(events, [0], decode) == [ToolUse(id, "t", [], "")]
  {
    var events := Calling(id);
    assert OpenAt(events, 1, 0) == Some(0);
    NothingClosed(events, 2, decode);
    assert Deltas(events, 0, 1, 1) == "";
    assert Deltas(events, 0, 1, 2) == "";
    assert BlockOver(events, 0, 2, decode) == ToolUse(id, "t", [], "");
    assert [0][..0] == [] && OpenBlocks(events, [], decode) == [];
  }

  lemma CallingFrames(id: string, decode: Decoder)
    ensures Frames(Calling(id), 2, decode) == [ToolArgsFrame(id, "t", "")]
    ensures UseFramesOf([ToolUse(id, "t", [], "")]) == [ToolUseFrame(id, "t", [])]
  {
    var events := Calling(id);
    assert Frames(events, 0, decode) == [] && Frames(events, 1, decode) == [ToolArgsFrame(id, "t", "")];
    assert [ToolUse(id, "t", [], "")][..0] == [] && UseFramesOf([]) == [];
  }

  lemma CallingWhole(id: string, decode: Decoder)
    ensures ReadWhole(Streams(Calling(id), false), decode, CallingRead(id), [0])
    ensures forall n :: 0 <= n < |Calling(id)| ==> Legal(Calling(id), n)
    ensures CallsOf(CallingRead(id).content) == CallingRead(id).calls
  {
    var events := Calling(id);
    forall i ensures i in [0] <==> OpenAt(events, 2, i).Some? {
      assert OpenAt(events, 0, i) == None;
      assert OpenAt(events, 1, i) == if i == 0 then Some(0) else None;
    }
    assert OpenAt(events, 2, 0) == OpenAt(events, 1, 0) == Some(0);
    assert EndAfter(events, 0) == EndAfter(events, 1) == TurnEnd(StopUnknown, None);
    CallingBlocks(id, decode);
    CallingFrames(id, decode);
    var content := CallingRead(id).content;
    assert content[..0] == [];
  }

  function SplitTries(text: string, id: string, next: string): seq<Try> {
    var all := Marked(text, id);
    [Try(Outgoing(all, Books(None, 0)), Overflow(false), []),
     Try(Outgoing([all[0], all[3]], Books(None, 2)), Success, CallingRead(next).emitted)]
  }

  /** What the turn is: the call, and the books of a retry behind the look-alike. */
  function SplitTurn(next: string): Loop.Turn {
    var r := CallingRead(next);
    NO_TURN.(attempt := Some(Loop.ModelResult(r.content, r.calls, StopToolUse, None)), booksAfter := Books(None, 2))
  }

  lemma SplitTried(text: string, id: string, next: string, decode: Decoder)
    requires id != ""
    ensures Trail(Attempts.Sent(SplitTries(text, id, next)))
    ensures Tries(SplitTries(text, id, next), ThenCalls(next).model, ThenCalls(next).clients, decode)
  {
    MarkedRetry(text, id);
    CallingWhole(next, decode);
    PatientReads(Calling(next), ThenCalls(next).clients(1), CallingRead(next).emitted, decode);
    assert Retries(Attempts.Sent(SplitTries(text, id, next)), 0);
  }

  lemma SplitCall(setup: Setup, text: string, id: string, next: string) returns (m: Made)
    requires id != "" && setup.compress.window <= 0
    ensures CallMade(setup, ThenCalls(next), Marked(text, id), Books(None, 0), SplitTurn(next), m)
  {
    SplitTried(text, id, next, setup.decode);
    CallingWhole(next, setup.decode);
    m := Made(false, SplitTries(text, id, next), CallingRead(next), [0]);
  }

  /** A batch of calls that no tool can take is answered and the run goes on. */
  lemma UnknownEffect(cfg: Loop.Config, env: Env, view: seq<Message>, t: Loop.Turn, r: Loop.ModelResult)
    requires CallsModel(t) && t.attempt == Some(r) && r.calls != [] && r.stop == StopToolUse
    requires !t.afterAborts && !t.cancelledBeforeExit && GatedUpTo(env, r.calls, |r.calls|) == []
    requires ToolGate.Executed(env, r.calls, |r.calls|) == [] && Loop.DropEmptyBlocks(r.content) == r.content
    ensures Loop.TurnEffect(cfg, env, false, view, t) ==
            Loop.Effect(Loop.Continue, [Message(RoleAssistant, r.content)] + [Answering(env, r)], [], r.usage)
    ensures !Loop.Recovers(cfg, t)
  {
  }

  function Answering(env: Env, r: Loop.ModelResult): Message {
    Loop.ToolResultMessage(r.calls, Loop.ResultsOf(env, r.calls))
  }

  lemma CallingUnknown(env: Env, r: Loop.ModelResult, next: string)
    requires "t" !in env.tools && r.content == CallingRead(next).content && r.calls == CallingRead(next).calls
    ensures GatedUpTo(env, r.calls, |r.calls|) == [] && ToolGate.Executed(env, r.calls, |r.calls|) == []
    ensures Loop.DropEmptyBlocks(r.content) == r.content
  {
    assert r.content[..0] == [] && Loop.DropEmptyBlocks([]) == [];
    assert GateKind(env, r.calls[0]) == None && GatedUpTo(env, r.calls, 0) == [];
    assert ToolGate.Executed(env, r.calls, 0) == [];
  }

  /** The turn goes on with the call answered. */
  lemma SplitEffect(cfg: Loop.Config, env: Env, view: seq<Message>, next: string) returns (added: seq<Message>)
    requires "t" !in env.tools
    ensures Loop.TurnEffect(cfg, env, false, view, SplitTurn(next)) == Loop.Effect(Loop.Continue, added, [], None)
    ensures RoleClean(added) && !Loop.Recovers(cfg, SplitTurn(next))
  {
    var r := SplitTurn(next).attempt.value;
    CallingUnknown(env, r, next);
    UnknownEffect(cfg, env, view, SplitTurn(next), r);
    added := [Message(RoleAssistant, r.content)] + [Answering(env, r)];
  }

  lemma FirstGrown(setup: Setup, all: seq<Message>, t: Loop.Turn, added: seq<Message>, s: Loop.State)
    requires Grown(setup, all, Loop.FRESH, t, s) && Loop.ViewOf(all, Loop.FRESH, t) == all
    requires Loop.TurnEffect(setup.loop, setup.env, false, all, t) == Loop.Effect(Loop.Continue, added, [], None)
    requires !Loop.Recovers(setup.loop, t)
    ensures s.produced == added && s.books == t.booksAfter
  {
  }

  lemma StartsWithAnswer(view: seq<Message>)
    requires RoleClean(view) && view != [] && ResultIds(view[0].content) != []
    ensures Repair(view) != view
  {
    AnswersNothingFirst(view);
    FixedPoints(view);
  }

  /** The smallest run that goes wrong without a recovery: a look-alike leads the conversation,
      and the retry drops the exchange behind it. The count then covers the look-alike and the
      call, so that the next request starts with the answer to a call that is gone. */
  lemma SplitExchange(setup: Setup, text: string, id: string, next: string) returns (t: Loop.Turn, m: Made)
    requires id != "" && setup.compress.window <= 0 && "t" !in setup.env.tools
    ensures var all := Marked(text, id);
            Repair(all) == all && TurnMade(setup, all, ThenCalls(next), Loop.FRESH, t, m) &&
            Stays(setup, all, Loop.FRESH, t) && !Loop.Recovers(setup.loop, t) &&
            forall s :: Grown(setup, all, Loop.FRESH, t, s) ==>
              var view := Rebuilt(all + s.produced, s.books.viewDropped);
              view == all[2..] + s.produced && Repair(view) != view
  {
    var all := Marked(text, id);
    t := SplitTurn(next);
    m := SplitCall(setup, text, id, next);
    MarkedPaired(text, id);
    FixedPoints(all);
    FirstViewIs(all, t);
    var added := SplitEffect(setup.loop, setup.env, all, next);
    SplitView(text, id, added);
    forall s | Grown(setup, all, Loop.FRESH, t, s) ensures s.produced == added && s.books == Books(None, 2) {
      FirstGrown(setup, all, t, added, s);
    }
  }

  lemma SplitView(text: string, id: string, added: seq<Message>)
    requires id != "" && RoleClean(added)
    ensures var all, view := Marked(text, id), Rebuilt(Marked(text, id) + added, 2);
            view == all[2..] + added && Repair(view) != view
  {
    var all, view := Marked(text, id), Marked(text, id)[2..] + added;
    MarkedIds(text, id);
    MarkedPaired(text, id);
    assert Rebuilt(all + added, 2) == view && view[0] == all[2];
    StartsWithAnswer(view);
  }
}
