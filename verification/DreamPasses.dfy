/** What becomes of each session a pass comes to, told by its costs and errors alone
    (internal/dreaming/worker.go:191-357). */
module DreamPasses {
  import opened Provider
  import opened DreamWorker
  import opened Selections

  // ---- One session ------------------------------------------------------------------------

  /** The costs of the first two stages leave some of the allowance. */
  predicate LastAffordable(s: Stages, left: int) {
    s.extract.tokens + s.compress.tokens < left
  }

  /** The batch is folded in: there is one, its last stage can be afforded, nothing fails. */
  predicate Folds(v: Visit, left: int) {
    && Waiting(v) && LastAffordable(v.stages, left)
    && !v.stages.extract.failed && !v.stages.compress.failed && !v.stages.consolidate.failed
    && !v.stages.capsFail && !v.markFails
  }

  /** The first thing to go wrong is reached: reading, or a stage that could be afforded, or
      what follows the last one. */
  predicate Breaks(v: Visit, left: int) {
    || v.episodes.None?
    || (Waiting(v) && v.stages.extract.failed)
    || (Waiting(v) && v.stages.extract.tokens < left && v.stages.compress.failed)
    || (Waiting(v) && LastAffordable(v.stages, left) &&
        (v.stages.consolidate.failed || v.stages.capsFail || v.markFails))
  }

  /** The allowance ends within the batch. */
  predicate Defers(v: Visit, left: int) {
    Waiting(v) && !Breaks(v, left) && !LastAffordable(v.stages, left)
  }

  /** The tokens the stages that run take. */
  function Takes(s: Stages, left: int): nat {
    if s.extract.failed || s.extract.tokens >= left then s.extract.tokens
    else if s.compress.failed || !LastAffordable(s, left) then s.extract.tokens + s.compress.tokens
    else s.extract.tokens + s.compress.tokens + s.consolidate.tokens
  }

  function TakesIn(v: Visit, left: int): nat {
    if Waiting(v) then Takes(v.stages, left) else 0
  }

  lemma RunsSome(stages: Stages, left: int)
    requires left > 0
    ensures 0 < |Batch(stages, left).calls| <= 3
    ensures |Batch(stages, left).calls| == StagesRun(stages, left, 3)
    ensures forall k :: 0 <= k < |Batch(stages, left).calls| ==>
              Batch(stages, left).calls[k].tokens == stages.Of(ORDER[k]).tokens
  {
    Unrolled(stages, left);
  }

  lemma SpentIsCost(stages: Stages, left: int, calls: seq<Bill>)
    requires left > 0 && calls == Batch(stages, left).calls
    ensures |calls| <= 3 && Spent(calls) == Cost(stages, |calls|)
  {
    RunsSome(stages, left);
    CostPrefix(stages, left, |calls| - 1);
    LastBill(stages, calls);
  }

  lemma LastBill(stages: Stages, calls: seq<Bill>)
    requires 0 < |calls| <= 3 && Spent(calls[..|calls| - 1]) == Cost(stages, |calls| - 1)
    requires calls[|calls| - 1].tokens == stages.Of(ORDER[|calls| - 1]).tokens
    ensures Spent(calls) == Cost(stages, |calls|)
  {
  }

  lemma CostsOf(stages: Stages)
    ensures Cost(stages, 1) == stages.extract.tokens
    ensures Cost(stages, 2) == stages.extract.tokens + stages.compress.tokens
    ensures Cost(stages, 3) == stages.extract.tokens + stages.compress.tokens + stages.consolidate.tokens
  {
    assert ORDER[0] == Extract && ORDER[1] == Compress && ORDER[2] == Consolidate;
    assert Cost(stages, 0) == 0;
  }

  lemma BatchTakes(stages: Stages, left: int)
    requires left > 0
    ensures Spent(Batch(stages, left).calls) == Takes(stages, left)
  {
    SpentIsCost(stages, left, Batch(stages, left).calls);
    RunsSome(stages, left);
    CostsOf(stages);
    Unrolled(stages, left);
  }

  /** How a batch ends. */
  lemma BatchEnds(s: Stages, left: int)
    requires left > 0
    ensures var out := Batch(s, left);
            && out.failed == (s.extract.failed || (s.extract.tokens < left && s.compress.failed) ||
                              (LastAffordable(s, left) && (s.consolidate.failed || s.capsFail)))
            && (!out.failed ==> out.consolidated == LastAffordable(s, left))
  {
    CostsOf(s);
    Unrolled(s, left);
    FoldedMeans(s, left);
    assert ORDER[0] == Extract && ORDER[1] == Compress && ORDER[2] == Consolidate;
  }

  /** What a visit makes of a pass that still goes on. */
  lemma VisitMeans(p: Pass, v: Visit, budget: nat)
    requires !p.stopped && Spent(p.calls) < budget
    ensures var p', left := VisitNext(p, v, budget), budget - Spent(p.calls);
            && p'.stopped == Breaks(v, left) && p'.failed == (p.failed || Breaks(v, left))
            && p'.exhausted == (p.exhausted || Defers(v, left))
            && Spent(p'.calls) == Spent(p.calls) + TakesIn(v, left)
            && |p'.marks| == |p.marks| + (if Folds(v, left) then 1 else 0) && p.marks <= p'.marks
            && (Folds(v, left) ==> MarksVisit(p'.marks[|p.marks|], v))
  {
    var left := budget - Spent(p.calls);
    VisitMarks(p, v, budget);
    if Waiting(v) {
      BatchEnds(v.stages, left);
      BatchTakes(v.stages, left);
      SpentConcat(p.calls, Batch(v.stages, left).calls);
    }
  }

  /** What the next session makes of a pass. */
  predicate Becomes(p: Pass, p': Pass, v: Visit, budget: nat) {
    var left := budget - Spent(p.calls);
    if p.stopped then p' == p
    else if left <= 0 then p' == p.(exhausted := true, stopped := true)
    else
      && p'.stopped == Breaks(v, left) && p'.failed == (p.failed || Breaks(v, left))
      && p'.exhausted == (p.exhausted || Defers(v, left))
      && Spent(p'.calls) == Spent(p.calls) + TakesIn(v, left)
      && |p'.marks| == |p.marks| + (if Folds(v, left) then 1 else 0) && p.marks <= p'.marks
      && (Folds(v, left) ==> MarksVisit(p'.marks[|p.marks|], v))
  }

  lemma NextBecomes(p: Pass, v: Visit, budget: nat)
    ensures Becomes(p, VisitNext(p, v, budget), v, budget)
  {
    if !p.stopped && Spent(p.calls) < budget {
      VisitMeans(p, v, budget);
    }
  }

  // ---- The whole pass ------------------------------------------------------------------------

  ghost function SpentBefore(visits: seq<Visit>, k: nat, budget: nat): nat
    requires k <= |visits|
  {
    Spent(PassOver(visits[..k], budget).calls)
  }

  /** No session before the n-th ended the pass: there was budget left, and nothing broke. */
  ghost predicate Reaches(visits: seq<Visit>, n: nat, budget: nat) {
    n <= |visits| && forall j: nat :: j < n ==> PassedBy(visits, j, budget)
  }

  ghost predicate PassedBy(visits: seq<Visit>, j: nat, budget: nat)
    requires j < |visits|
  {
    SpentBefore(visits, j, budget) < budget && !Breaks(visits[j], budget - SpentBefore(visits, j, budget))
  }

  /** The pass comes to session k with budget left, and folds its batch in. */
  ghost predicate FoldedAt(visits: seq<Visit>, budget: nat, k: nat) {
    k < |visits| && Reaches(visits, k, budget) && SpentBefore(visits, k, budget) < budget &&
    Folds(visits[k], budget - SpentBefore(visits, k, budget))
  }

  ghost predicate MarkedAt(visits: seq<Visit>, marks: seq<Mark>, j: nat, k: nat) {
    j < |marks| && k < |visits| && MarksVisit(marks[j], visits[k])
  }

  lemma PrefixSpent(visits: seq<Visit>, n: nat, budget: nat)
    requires n <= |visits|
    ensures forall k: nat :: k <= n ==> SpentBefore(visits[..n], k, budget) == SpentBefore(visits, k, budget)
    ensures forall k: nat :: k <= n ==> Reaches(visits[..n], k, budget) == Reaches(visits, k, budget)
    ensures forall k: nat :: k < n ==> FoldedAt(visits[..n], budget, k) == FoldedAt(visits, budget, k)
  {
    forall k: nat | k <= n ensures SpentBefore(visits[..n], k, budget) == SpentBefore(visits, k, budget) {
      assert visits[..n][..k] == visits[..k];
    }
    forall k: nat | k < n ensures PassedBy(visits[..n], k, budget) == PassedBy(visits, k, budget) {
      assert SpentBefore(visits[..n], k, budget) == SpentBefore(visits, k, budget);
    }
    forall k: nat | k <= n ensures Reaches(visits[..n], k, budget) == Reaches(visits, k, budget) {
      assert forall j: nat :: j < k ==> PassedBy(visits[..n], j, budget) == PassedBy(visits, j, budget);
    }
  }

  /** Main result: a pass folds in exactly the sessions it comes to with allowance for all of
      their stages and nothing going wrong, in the order they were listed; it goes on past a
      session exactly when budget was left for it and nothing broke; and each session adds
      what its stages take. */
  lemma {:induction false} PassFolds(visits: seq<Visit>, budget: nat) returns (at: seq<nat>)
    ensures var p := PassOver(visits, budget);
            && Positions(at, |visits|, (k: nat) => FoldedAt(visits, budget, k))
            && Matched(at, |p.marks|, (j: nat, k: nat) => MarkedAt(visits, p.marks, j, k))
            && p.stopped == !Reaches(visits, |visits|, budget)
    ensures visits != [] ==>
              var k := |visits| - 1;
              var left := budget - SpentBefore(visits, k, budget);
              SpentBefore(visits, |visits|, budget) ==
                SpentBefore(visits, k, budget) + if Reaches(visits, k, budget) &&
                left > 0 then TakesIn(visits[k], left) else 0
  {
    if visits == [] {
      at := [];
      return;
    }
    var n := |visits| - 1;
    at := PassFolds(visits[..n], budget);
    PrefixSpent(visits, n, budget);
    NextBecomes(PassOver(visits[..n], budget), visits[n], budget);
    LastVisit(visits, budget, PassOver(visits[..n], budget), PassOver(visits, budget));
    at := NextFolds(visits, budget, at, PassOver(visits[..n], budget).marks, PassOver(visits, budget).marks);
  }

  lemma NextFolds(visits: seq<Visit>, budget: nat, at: seq<nat>, marks: seq<Mark>, marks': seq<Mark>)
    returns (more: seq<nat>)
    requires visits != [] && marks <= marks'
    requires Positions(at, |visits| - 1, (k: nat) => FoldedAt(visits[..|visits| - 1], budget, k))
    requires Matched(at, |marks|, (j: nat, k: nat) => MarkedAt(visits[..|visits| - 1], marks, j, k))
    requires forall k: nat :: k < |visits| - 1 ==>
               FoldedAt(visits[..|visits| - 1], budget, k) == FoldedAt(visits, budget, k)
    requires |marks'| == |marks| + (if FoldedAt(visits, budget, |visits| - 1) then 1 else 0)
    requires FoldedAt(visits, budget, |visits| - 1) ==> MarksVisit(marks'[|marks|], visits[|visits| - 1])
    ensures Positions(more, |visits|, (k: nat) => FoldedAt(visits, budget, k))
    ensures Matched(more, |marks'|, (j: nat, k: nat) => MarkedAt(visits, marks', j, k))
  {
    var n := |visits| - 1;
    more := NextSelected(at, n, (k: nat) => FoldedAt(visits[..n], budget, k), (k: nat) => FoldedAt(visits, budget, k),
                         |marks|, (j: nat, k: nat) => MarkedAt(visits[..n], marks, j, k),
                         (j: nat, k: nat) => MarkedAt(visits, marks', j, k));
  }

  lemma LastVisit(visits: seq<Visit>, budget: nat, p: Pass, p': Pass)
    requires visits != [] && Becomes(p, p', visits[|visits| - 1], budget)
    requires p == PassOver(visits[..|visits| - 1], budget) && p' == PassOver(visits, budget)
    requires p.stopped == !Reaches(visits, |visits| - 1, budget)
    ensures var n := |visits| - 1;
            var left := budget - SpentBefore(visits, n, budget);
            && p'.stopped == !Reaches(visits, n + 1, budget) && p.marks <= p'.marks
            && |p'.marks| == |p.marks| + (if FoldedAt(visits, budget, n) then 1 else 0)
            && (FoldedAt(visits, budget, n) ==> MarksVisit(p'.marks[|p.marks|], visits[n]))
            && SpentBefore(visits, n + 1, budget) ==
               SpentBefore(visits, n, budget) + if Reaches(visits, n, budget) &&
               left > 0 then TakesIn(visits[n], left) else 0
  {
    var n := |visits| - 1;
    assert visits[..n + 1] == visits;
    ReachesNext(visits, n, budget);
  }

  lemma ReachesNext(visits: seq<Visit>, n: nat, budget: nat)
    requires n < |visits|
    ensures Reaches(visits, n + 1, budget) <==> Reaches(visits, n, budget) && PassedBy(visits, n, budget)
  {
  }

  lemma LastReports(visits: seq<Visit>, budget: nat, p: Pass, p': Pass)
    requires visits != [] && Becomes(p, p', visits[|visits| - 1], budget)
    requires p == PassOver(visits[..|visits| - 1], budget)
    requires p.stopped == !Reaches(visits, |visits| - 1, budget)
    ensures p'.failed == (p.failed || BrokenAt(visits, budget, |visits| - 1))
    ensures p'.exhausted == (p.exhausted || ShortAt(visits, budget, |visits| - 1))
  {
  }

  /** How a pass ends: failed when something broke, exhausted when a session was left for lack
      of budget or allowance. */
  lemma {:induction false} PassReports(visits: seq<Visit>, budget: nat)
    ensures PassOver(visits, budget).failed <==> AnyBroken(visits, budget)
    ensures PassOver(visits, budget).exhausted <==> AnyShort(visits, budget)
  {
    if visits != [] {
      var n := |visits| - 1;
      PassReports(visits[..n], budget);
      var _ := PassFolds(visits[..n], budget);
      SameReports(visits, budget);
      NextBecomes(PassOver(visits[..n], budget), visits[n], budget);
      LastReports(visits, budget, PassOver(visits[..n], budget), PassOver(visits, budget));
    }
  }

  lemma SameReports(visits: seq<Visit>, budget: nat)
    requires visits != []
    ensures var n := |visits| - 1;
            && Reaches(visits[..n], n, budget) == Reaches(visits, n, budget)
            && AnyBroken(visits, budget) == (AnyBroken(visits[..n], budget) || BrokenAt(visits, budget, n))
            && AnyShort(visits, budget) == (AnyShort(visits[..n], budget) || ShortAt(visits, budget, n))
  {
    var n := |visits| - 1;
    PrefixSpent(visits, n, budget);
    SameBroken(visits, visits[..n], n, budget);
    SameShort(visits, visits[..n], n, budget);
  }

  lemma SameBroken(visits: seq<Visit>, front: seq<Visit>, n: nat, budget: nat)
    requires |visits| == n + 1 && front == visits[..n]
    ensures AnyBroken(visits, budget) == (AnyBroken(front, budget) || BrokenAt(visits, budget, n))
  {
    forall k: nat | k < n ensures BrokenAt(front, budget, k) == BrokenAt(visits, budget, k) {
      SameAt(visits, front, budget, k);
    }
    OneMore((k: nat) => BrokenAt(front, budget, k), (k: nat) => BrokenAt(visits, budget, k), n);
  }

  lemma SameShort(visits: seq<Visit>, front: seq<Visit>, n: nat, budget: nat)
    requires |visits| == n + 1 && front == visits[..n]
    ensures AnyShort(visits, budget) == (AnyShort(front, budget) || ShortAt(visits, budget, n))
  {
    forall k: nat | k < n ensures ShortAt(front, budget, k) == ShortAt(visits, budget, k) {
      SameAt(visits, front, budget, k);
    }
    OneMore((k: nat) => ShortAt(front, budget, k), (k: nat) => ShortAt(visits, budget, k), n);
  }

  lemma SameAt(visits: seq<Visit>, front: seq<Visit>, budget: nat, k: nat)
    requires k < |front| && front <= visits
    ensures BrokenAt(front, budget, k) == BrokenAt(visits, budget, k)
    ensures ShortAt(front, budget, k) == ShortAt(visits, budget, k)
  {
    assert front == visits[..|front|];
    PrefixSpent(visits, |front|, budget);
  }

  lemma OneMore(p: nat -> bool, q: nat -> bool, n: nat)
    requires forall k: nat :: (p(k) ==> k < n) && (q(k) ==> k <= n) && (k < n ==> p(k) == q(k))
    ensures (exists k: nat :: q(k)) <==> (exists k: nat :: p(k)) || q(n)
  {
    if k: nat :| q(k) {
      assert k < n ==> p(k);
    }
    if k: nat :| p(k) {
      assert q(k);
    }
  }

  /** Session k is come to with budget left, and something goes wrong. */
  ghost predicate BrokenAt(visits: seq<Visit>, budget: nat, k: nat) {
    k < |visits| && Reaches(visits, k, budget) && SpentBefore(visits, k, budget) < budget &&
    Breaks(visits[k], budget - SpentBefore(visits, k, budget))
  }

  /** Session k is come to with no budget left, or with too little for its batch. */
  ghost predicate ShortAt(visits: seq<Visit>, budget: nat, k: nat) {
    k < |visits| && Reaches(visits, k, budget) &&
    (SpentBefore(visits, k, budget) >= budget || Defers(visits[k], budget - SpentBefore(visits, k, budget)))
  }

  ghost predicate AnyBroken(visits: seq<Visit>, budget: nat) {
    exists k: nat :: BrokenAt(visits, budget, k)
  }

  ghost predicate AnyShort(visits: seq<Visit>, budget: nat) {
    exists k: nat :: ShortAt(visits, budget, k)
  }
}
