/** Consequences for whole runs (internal/agent/loop.go:399-433, 717-758, 802-843). */
module RunProperties {
  import opened Provider
  import opened Pairing
  import opened PairingSpec
  import opened PairingProperties
  import opened Rounds
  import opened RoundsProperties
  import opened Compress
  import opened CompressProperties
  import opened Middleware
  import opened OverflowProperties
  import opened ToolGate
  import opened AgentLoop
  import RunTrace

  // ---- Repairing once -----------------------------------------------------------------

  lemma ProducedStrict(base: seq<Message>, produced: seq<Message>)
    requires Strict(base) && AnsweredInOrder(produced) && RoleClean(base + produced) && NonEmpty(produced)
    requires Distinct(AllUses(base + produced))
    ensures Strict(base + produced)
  {
    var all, n := base + produced, |base|;
    forall i | 0 <= i < |all| ensures all[i].content != [] && StrictAt(all, i) {
      if i < n {
        assert StrictAt(base, i) && all[i] == base[i];
      } else {
        assert AnsweredAt(produced, i - n);
        assert all[i] == produced[i - n] && (i > n ==> all[i - 1] == produced[i - n - 1]);
        assert i + 1 < |all| ==> all[i + 1] == produced[i + 1 - n];
        NoneOf(all[i].content);
      }
    }
  }

  lemma BaseStaysStrict(base: seq<Message>, produced: seq<Message>)
    requires Strict(base + produced) && AnsweredInOrder(produced)
    ensures Strict(base)
  {
    var all, n := base + produced, |base|;
    AllUsesConcat(base, produced);
    DistinctParts(AllUses(base), AllUses(produced));
    forall i | 0 <= i < n ensures base[i].content != [] && StrictAt(base, i) {
      assert StrictAt(all, i) && all[i] == base[i];
      assert i + 1 == n && produced != [] ==> AnsweredAt(produced, 0) && all[n] == produced[0];
    }
  }

  /** Main result: repairing the view again after the first time changes nothing, as the
      loop assumes, exactly when the history was settled and the provider used no call id
      twice. */
  lemma RepairOnce(history: seq<Message>, produced: seq<Message>)
    requires RoleClean(history) && RoleClean(Repair(history) + produced)
    requires AnsweredInOrder(produced) && NonEmpty(produced)
    ensures Repair(Repair(history) + produced) == Repair(history) + produced <==>
            Settled(history) && Distinct(AllUses(Repair(history) + produced))
  {
    var base := Repair(history);
    OnePassEnough(history);
    FixedPoints(base + produced);
    if Strict(base) && Distinct(AllUses(base + produced)) {
      ProducedStrict(base, produced);
    }
    if Strict(base + produced) {
      BaseStaysStrict(base, produced);
    }
  }

  /** The smallest run on a settled history that a second repair changes: the provider gives
      two calls the same id. */
  lemma ReusedId(id: string, result: string)
    ensures var produced := Twice(id, result);
            Settled([]) && RoleClean(produced) && AnsweredInOrder(produced) && NonEmpty(produced) &&
            Repair(Repair([]) + produced) != Repair([]) + produced
  {
    var produced := Twice(id, result);
    var use, answer := [ToolUse(id, "", [], "")], [ToolResult(id, result, false)];
    assert Settled([]) && Repair([]) == [] && [] + produced == produced;
    OneBlockIds(use[0]);
    OneBlockIds(answer[0]);
    forall i | 0 <= i < 4 ensures AnsweredAt(produced, i) {
    }
    TwiceUsed(id, result);
    RepairOnce([], produced);
  }

  /** A call and its answer, twice. */
  function Twice(id: string, result: string): seq<Message> {
    var call := Message(RoleAssistant, [ToolUse(id, "", [], "")]);
    var answer := Message(RoleUser, [ToolResult(id, result, false)]);
    [call, answer, call, answer]
  }

  lemma TwiceUsed(id: string, result: string)
    ensures !Distinct(AllUses(Twice(id, result)))
  {
    var m := Twice(id, result);
    var use := m[0].content;
    assert use[..0] == [] && UseIds(use) == [id];
    AllUsesConcat(m[..2], m[2..]);
    assert m == m[..2] + m[2..];
    AllUsesHas(m[..2], 0);
    AllUsesHas(m[2..], 0);
    DistinctApart(AllUses(m[..2]), AllUses(m[2..]), id);
  }

  lemma DistinctApart(a: seq<string>, b: seq<string>, id: string)
    requires id in a && id in b
    ensures !Distinct(a + b)
  {
    var i :| 0 <= i < |a| && a[i] == id;
    var j :| 0 <= j < |b| && b[j] == id;
    assert (a + b)[i] == (a + b)[|a| + j];
  }

  // ---- Context pressure -------------------------------------------------------------------

  /** The drop is booked on the cache although the loop's view never holds its summary. */
  predicate TakenByCache(view: seq<Message>, books: Books) {
    books.cache.Some? && books.cache.value.covered > 0 && view != [] && IsSummary(view[0])
  }

  lemma LoopDropShape(view: seq<Message>, books: Books)
    requires Paired(view) && RoundCount(view) > 1
    ensures LoopDrop(view, books).Some?
    ensures LoopDrop(view, books).value.viewDropped ==
            if TakenByCache(view, books) then books.viewDropped else books.viewDropped + |view| - |Remainder(view)|
  {
    DropLeavesRemainder(view);
  }

  lemma RebuiltIs(all: seq<Message>, dropped: int, produced: seq<Message>, rest: seq<Message>)
    requires 0 < dropped < |all| && |rest| == |all| - dropped
    ensures Rebuilt(all + produced, dropped) == rest + produced <==> Carried(all, rest, dropped)
  {
    assert (all + produced)[dropped..] == all[dropped..] + produced;
    assert (all[dropped..] + produced)[..|rest|] == all[dropped..] && (rest + produced)[..|rest|] == rest;
  }

  /** Main result: after a truncation was recovered, the next rebuilt view is the shrunk view
      and what was produced since, exactly unless a look-alike led the view and kept its
      place, or had the drop booked on a cache. */
  lemma RecoveredViewCarried(all: seq<Message>, view: seq<Message>, books: Books, produced: seq<Message>)
    requires Paired(view) && Carried(all, view, books.viewDropped) && RoundCount(view) > 1
    ensures var after := LoopDrop(view, books);
            after.Some? &&
            (Rebuilt(all + produced, after.value.viewDropped) == Remainder(view) + produced <==>
             !DropsBehindHead(view) && !TakenByCache(view, books))
  {
    LoopDropShape(view, books);
    RemainderShorter(view);
    if TakenByCache(view, books) {
      CarriedRebuilds(all, view, books.viewDropped, produced);
    } else {
      DropRebuilds(all, view, books.viewDropped, produced);
    }
  }

  lemma DropRebuilds(all: seq<Message>, view: seq<Message>, dropped: int, produced: seq<Message>)
    requires Paired(view) && Carried(all, view, dropped) && RoundCount(view) > 1
    ensures Rebuilt(all + produced, dropped + |view| - |Remainder(view)|) == Remainder(view) + produced <==>
            !DropsBehindHead(view)
  {
    RemainderCarried(all, view, dropped);
    RemainderShorter(view);
    RebuiltIs(all, dropped + |view| - |Remainder(view)|, produced, Remainder(view));
  }

  lemma RemainderShorter(view: seq<Message>)
    requires Paired(view) && RoundCount(view) > 1
    ensures 0 < |Remainder(view)| < |view|
  {
    DropLeavesRemainder(view);
    RoundCountIs(view);
    if IsSummary(view[0]) && RoundCount(view) > 2 {
      SummaryHead(view);
      SecondRound(view);
    }
  }

  // ---- Frames --------------------------------------------------------------------------------

  /** What a client can rely on in the frames of an ended run: the terminal frame is the
      last one, and every step is finished before another starts or the run ends. */
  lemma ClientView(cfg: Config, env: Env, s: State, o: Outcome, i: nat, j: nat)
    requires Ended(cfg, env, s, o) && i < j < |s.trace|
    ensures !RunTrace.Terminal(s.trace[i])
    ensures s.trace[i].StepStart? && RunTrace.StartsOrEnds(s.trace[j]) ==>
              exists k :: i < k < j && s.trace[k].StepFinish?
  {
    RunTrace.OneTerminal(s.trace);
    if s.trace[i].StepStart? && RunTrace.StartsOrEnds(s.trace[j]) {
      RunTrace.StepsClosed(s.trace, i, j);
    }
  }
}
