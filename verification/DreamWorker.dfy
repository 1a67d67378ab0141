/** One consolidation pass (internal/dreaming/worker.go:191-357). */
module DreamWorker {
  import opened Provider

  // ---- One batch ---------------------------------------------------------------------------

  datatype Stage = Extract | Compress | Consolidate

  /** What one stage's model call comes back with. */
  datatype Reply = Reply(tokens: nat, failed: bool)

  /** What the environment answers in one batch; `capsFail` is a store error while the caps
      are enforced. */
  datatype Stages = Stages(extract: Reply, compress: Reply, consolidate: Reply, capsFail: bool)
  {
    function Of(s: Stage): Reply {
      match s
      case Extract => extract
      case Compress => compress
      case Consolidate => consolidate
    }
  }

  /** A stage that ran and what it cost. */
  datatype Bill = Bill(stage: Stage, tokens: nat)

  datatype Outcome = Outcome(consolidated: bool, failed: bool, calls: seq<Bill>)

  function Spent(calls: seq<Bill>): nat {
    if calls == [] then 0 else Spent(calls[..|calls| - 1]) + calls[|calls| - 1].tokens
  }

  /** Run the stages of one batch within the remaining allowance. */
  method ProcessSession(stages: Stages, remaining: int) returns (out: Outcome, tokens: nat)
    ensures out == Batch(stages, remaining) && tokens == Spent(out.calls)
  {
    Unrolled(stages, remaining);
    if remaining <= 0 {
      return Outcome(false, false, []), 0;
    }
    var calls := [Bill(Extract, stages.extract.tokens)];
    tokens := stages.extract.tokens;
    SpentOne(Bill(Extract, tokens));
    if stages.extract.failed {
      return Outcome(false, true, calls), tokens;
    }
    if remaining - tokens > 0 {
      SpentMore(calls, Bill(Compress, stages.compress.tokens));
      calls, tokens := calls + [Bill(Compress, stages.compress.tokens)], tokens + stages.compress.tokens;
      if stages.compress.failed {
        return Outcome(false, true, calls), tokens;
      }
    }
    if remaining - tokens <= 0 {
      return Outcome(false, false, calls), tokens;
    }
    SpentMore(calls, Bill(Consolidate, stages.consolidate.tokens));
    calls, tokens := calls + [Bill(Consolidate, stages.consolidate.tokens)], tokens + stages.consolidate.tokens;
    if stages.consolidate.failed {
      return Outcome(false, true, calls), tokens;
    }
    out := Outcome(true, stages.capsFail, calls);
  }

  lemma SpentOne(c: Bill)
    ensures Spent([c]) == c.tokens
  {
    assert [c][..0] == [];
  }

  lemma SpentMore(calls: seq<Bill>, c: Bill)
    ensures Spent(calls + [c]) == Spent(calls) + c.tokens
  {
    assert (calls + [c])[..|calls|] == calls;
  }

  lemma {:induction false} SpentConcat(a: seq<Bill>, b: seq<Bill>)
    ensures Spent(a + b) == Spent(a) + Spent(b)
  {
    if b == [] {
      assert a + b == a;
    } else {
      SpentConcat(a, b[..|b| - 1]);
      assert (a + b)[..|a + b| - 1] == a + b[..|b| - 1];
    }
  }

  const ORDER := [Extract, Compress, Consolidate]

  /** How many of the stages, in their order, get to run: each one only while allowance is
      left and the one before succeeded. */
  function StagesRun(stages: Stages, remaining: int, n: nat): (k: nat)
    requires n <= 3
    ensures k <= n
  {
    if n == 0 then 0 else
    var k := StagesRun(stages, remaining, n - 1);
    if k == n - 1 && Cost(stages, n - 1) < remaining && (n == 1 || !stages.Of(ORDER[n - 2]).failed) then n else k
  }

  /** The cost of the first n stages. */
  function Cost(stages: Stages, n: nat): nat
    requires n <= 3
  {
    if n == 0 then 0 else Cost(stages, n - 1) + stages.Of(ORDER[n - 1]).tokens
  }

  /** The reference: the longest affordable run of the stages; the batch is folded in when
      all three ran and the last succeeded. */
  function Batch(stages: Stages, remaining: int): Outcome {
    var n := StagesRun(stages, remaining, 3);
    var ok := n == 0 || !stages.Of(ORDER[n - 1]).failed;
    Outcome(n == 3 && ok, !ok || (n == 3 && stages.capsFail),
            seq(n, k requires 0 <= k < n => Bill(ORDER[k], stages.Of(ORDER[k]).tokens)))
  }

  lemma Unrolled(stages: Stages, remaining: int)
    ensures Cost(stages, 1) == stages.extract.tokens && Cost(stages, 2) == Cost(stages, 1) + stages.compress.tokens
    ensures StagesRun(stages, remaining, 3) ==
            if remaining <= 0 then 0
            else if stages.extract.failed || Cost(stages, 1) >= remaining then 1
            else if stages.compress.failed || Cost(stages, 2) >= remaining then 2
            else 3
  {
    assert ORDER[0] == Extract && ORDER[1] == Compress && ORDER[2] == Consolidate;
    assert Cost(stages, 0) == 0 && StagesRun(stages, remaining, 0) == 0;
    var one, two := StagesRun(stages, remaining, 1), StagesRun(stages, remaining, 2);
    assert one == if 0 < remaining then 1 else 0;
    assert two == if one == 1 && Cost(stages, 1) < remaining && !stages.extract.failed then 2 else one;
  }

  /** Folding in takes all three stages, each without an error, and the caps. */
  lemma FoldedMeans(stages: Stages, remaining: int)
    ensures var out := Batch(stages, remaining);
            out.consolidated && !out.failed <==>
            Cost(stages, 2) < remaining && !stages.extract.failed && !stages.compress.failed &&
            !stages.consolidate.failed && !stages.capsFail
    ensures !Batch(stages, remaining).consolidated && !Batch(stages, remaining).failed ==> Cost(stages, 2) >= remaining
  {
    Unrolled(stages, remaining);
  }

  // ---- A pass over the pending sessions ---------------------------------------------------------

  /** What the environment shows of one pending session: its watermark when the pass listed
      it, the messages after it (None when reading fails), the stages, and whether storing
      the new watermark fails. */
  datatype Visit = Visit(id: string, after: int, episodes: Option<seq<int>>, stages: Stages, markFails: bool)

  /** A batch whose messages were folded in, so that the watermark moved to their last. */
  datatype Mark = Mark(id: string, after: int, episodes: seq<int>, calls: seq<Bill>)

  datatype Pass = Pass(calls: seq<Bill>, episodes: nat, exhausted: bool, stopped: bool, failed: bool, marks: seq<Mark>)

  const BEGIN := Pass([], 0, false, false, false, [])

  /** The next session, reference: nothing once the pass stopped; the pass stops when the
      budget is spent; a batch that was not folded in leaves its watermark. */
  function VisitNext(p: Pass, v: Visit, budget: nat): Pass {
    if p.stopped then p
    else if Spent(p.calls) >= budget then p.(exhausted := true, stopped := true)
    else if v.episodes.None? then p.(failed := true, stopped := true)
    else if v.episodes.value == [] then p
    else
      var out := Batch(v.stages, budget - Spent(p.calls));
      var p' := p.(calls := p.calls + out.calls, episodes := p.episodes + |v.episodes.value|);
      if out.failed then p'.(failed := true, stopped := true)
      else if !out.consolidated then p'.(exhausted := true)
      else if v.markFails then p'.(failed := true, stopped := true)
      else p'.(marks := p.marks + [Mark(v.id, v.after, v.episodes.value, out.calls)])
  }

  function PassOver(visits: seq<Visit>, budget: nat): Pass {
    if visits == [] then BEGIN else VisitNext(PassOver(visits[..|visits| - 1], budget), visits[|visits| - 1], budget)
  }

  lemma {:induction false} StoppedStays(visits: seq<Visit>, n: nat, budget: nat)
    requires n <= |visits| && PassOver(visits[..n], budget).stopped
    ensures PassOver(visits, budget) == PassOver(visits[..n], budget)
  {
    if n == |visits| {
      assert visits[..n] == visits;
    } else {
      var front := visits[..|visits| - 1];
      assert front[..n] == visits[..n];
      StoppedStays(front, n, budget);
    }
  }

  method VisitSession(p0: Pass, v: Visit, tokens0: nat, budget: nat) returns (p: Pass, tokens: nat)
    requires tokens0 == Spent(p0.calls) && !p0.stopped
    ensures p == VisitNext(p0, v, budget) && tokens == Spent(p.calls)
  {
    p, tokens := p0, tokens0;
    if tokens >= budget {
      return p.(exhausted := true, stopped := true), tokens;
    }
    if v.episodes.None? {
      return p.(failed := true, stopped := true), tokens;
    }
    var eps := v.episodes.value;
    if eps == [] {
      return;
    }
    var out, used := ProcessSession(v.stages, budget - tokens);
    SpentConcat(p.calls, out.calls);
    p := p.(calls := p.calls + out.calls, episodes := p.episodes + |eps|);
    tokens := tokens + used;
    if out.failed {
      return p.(failed := true, stopped := true), tokens;
    }
    if !out.consolidated {
      return p.(exhausted := true), tokens;
    }
    if v.markFails {
      return p.(failed := true, stopped := true), tokens;
    }
    p := p.(marks := p.marks + [Mark(v.id, v.after, eps, out.calls)]);
  }

  method RunOver(visits: seq<Visit>, budget: nat) returns (p: Pass, tokens: nat)
    ensures p == PassOver(visits, budget) && tokens == Spent(p.calls)
  {
    p, tokens := BEGIN, 0;
    for k := 0 to |visits|
      invariant p == PassOver(visits[..k], budget) && tokens == Spent(p.calls) && !p.stopped
    {
      assert visits[..k + 1][..k] == visits[..k];
      p, tokens := VisitSession(p, visits[k], tokens, budget);
      if p.stopped {
        StoppedStays(visits, k + 1, budget);
        return;
      }
    }
    assert visits[..|visits|] == visits;
  }

  /** A pass one user asked for: with nothing to learn from, the existing store is reviewed
      instead, in one consolidation call, and the caps are enforced unless it failed. */
  method RunForUser(listed: Option<seq<Visit>>, budget: nat, review: Reply, capsFail: bool)
    returns (p: Pass, tokens: nat, compacted: bool, capped: bool)
    requires budget > 0
    ensures listed.None? ==> p.failed && p.calls == [] && p.marks == []
    ensures compacted <==> listed.Some? && !PassOver(listed.value, budget).failed && Pending(listed.value) == 0
    ensures !compacted && listed.Some? ==> p == PassOver(listed.value, budget)
    ensures compacted ==> p.calls == [Bill(Consolidate, review.tokens)] && p.marks == []
    ensures capped <==> compacted && !review.failed
    ensures compacted ==> p.episodes == 0 && !p.exhausted
    ensures compacted ==> p.failed == (review.failed || (capped && capsFail))
    ensures WithinBudget(p.calls, budget) && tokens == Spent(p.calls)
  {
    if listed.None? {
      return BEGIN.(failed := true, stopped := true), 0, false, false;
    }
    capped := false;
    p, tokens := RunOver(listed.value, budget);
    PassWithinBudget(listed.value, budget);
    NothingRead(listed.value, budget);
    compacted := !(p.failed || p.episodes > 0 || p.exhausted);
    if compacted {
      SpentOne(Bill(Consolidate, review.tokens));
      p := p.(calls := [Bill(Consolidate, review.tokens)], failed := review.failed);
      tokens := tokens + review.tokens;
      assert p.calls[..0] == [];
      capped := !review.failed;
      if capped && capsFail {
        p := p.(failed := true);
      }
    }
  }

  /** A pass that read nothing spent nothing. */
  lemma {:induction false} NothingRead(visits: seq<Visit>, budget: nat)
    requires budget > 0
    ensures var p := PassOver(visits, budget);
            (p.episodes == 0 ==> p.calls == [] && p.marks == [] && !p.exhausted) &&
            (p.stopped ==> p.failed || p.exhausted) &&
            (!p.failed ==> (p.episodes == 0 <==> Pending(visits) == 0))
  {
    if visits != [] {
      var front, v := visits[..|visits| - 1], visits[|visits| - 1];
      NothingRead(front, budget);
      var p := PassOver(front, budget);
      if p.episodes == 0 {
        Unrolled(v.stages, budget);
      }
    }
  }

  // ---- What a pass guarantees ---------------------------------------------------------------------

  /** Every model call of the pass was started with budget left. */
  ghost predicate WithinBudget(calls: seq<Bill>, budget: nat) {
    forall k :: 0 <= k < |calls| ==> Spent(calls[..k]) < budget
  }

  lemma BatchWithin(stages: Stages, remaining: nat, before: seq<Bill>, budget: nat)
    requires WithinBudget(before, budget) && remaining == budget - Spent(before)
    ensures WithinBudget(before + Batch(stages, remaining).calls, budget)
  {
    var calls := Batch(stages, remaining).calls;
    Unrolled(stages, remaining);
    forall k | 0 <= k < |before + calls| ensures Spent((before + calls)[..k]) < budget {
      if k < |before| {
        assert (before + calls)[..k] == before[..k];
      } else {
        var j := k - |before|;
        assert (before + calls)[..k] == before + calls[..j];
        SpentConcat(before, calls[..j]);
        CostPrefix(stages, remaining, j);
      }
    }
  }

  lemma {:induction false} CostPrefix(stages: Stages, remaining: int, j: nat)
    requires j < |Batch(stages, remaining).calls|
    ensures Spent(Batch(stages, remaining).calls[..j]) == Cost(stages, j) < remaining
  {
    var calls := Batch(stages, remaining).calls;
    Unrolled(stages, remaining);
    if j > 0 {
      CostPrefix(stages, remaining, j - 1);
      assert calls[..j] == calls[..j - 1] + [calls[j - 1]];
      SpentMore(calls[..j - 1], calls[j - 1]);
    }
  }

  /** Main result: the budget bounds the work within a batch too; every model call starts
      under it, so a pass overshoots by at most its last call. */
  lemma {:induction false} PassWithinBudget(visits: seq<Visit>, budget: nat)
    ensures WithinBudget(PassOver(visits, budget).calls, budget)
  {
    if visits != [] {
      var front, v := visits[..|visits| - 1], visits[|visits| - 1];
      PassWithinBudget(front, budget);
      var p := PassOver(front, budget);
      if Spent(p.calls) < budget {
        BatchWithin(v.stages, budget - Spent(p.calls), p.calls, budget);
      }
    }
  }

  /** The stages of a folded batch, in order. */
  predicate Folded(calls: seq<Bill>) {
    |calls| == 3 && calls[0].stage == Extract && calls[1].stage == Compress && calls[2].stage == Consolidate
  }

  predicate MarksVisit(m: Mark, v: Visit) {
    && m.id == v.id && m.after == v.after && v.episodes == Some(m.episodes) && m.episodes != []
    && Folded(m.calls) && !v.stages.extract.failed && !v.stages.compress.failed && !v.stages.consolidate.failed
    && !v.stages.capsFail && !v.markFails
  }

  /** A watermark only moves for a batch that went through every stage without an error. */
  lemma VisitMarks(p: Pass, v: Visit, budget: nat)
    ensures var p' := VisitNext(p, v, budget);
            p'.marks == p.marks ||
            (|p'.marks| == |p.marks| + 1 && p'.marks[..|p.marks|] == p.marks && MarksVisit(p'.marks[|p.marks|], v))
  {
    Unrolled(v.stages, budget - Spent(p.calls));
    assert ORDER[0] == Extract && ORDER[1] == Compress && ORDER[2] == Consolidate;
  }

  predicate Waiting(v: Visit) {
    v.episodes.Some? && v.episodes.value != []
  }

  function Pending(visits: seq<Visit>): nat {
    if visits == [] then 0 else
    Pending(visits[..|visits| - 1]) + if Waiting(visits[|visits| - 1]) then 1 else 0
  }

  /** Main result: a pass that neither failed nor ran out of budget folded in every pending
      batch; one that deferred a batch says so. */
  lemma {:induction false} NothingLost(visits: seq<Visit>, budget: nat)
    ensures var p := PassOver(visits, budget);
            |p.marks| <= Pending(visits) &&
            (!p.failed && !p.exhausted ==> !p.stopped && |p.marks| == Pending(visits))
  {
    if visits != [] {
      NothingLost(visits[..|visits| - 1], budget);
    }
  }
}
