/** Compression over whole runs: the history only grows, and every call may come with its
    own policy and its own summarizer (internal/contextmgmt/compress.go:205-331). A ledger
    records where each history message went. */
module CompressRuns {
  import opened Provider
  import opened Pairing
  import opened PairingSpec
  import opened PairingProperties
  import opened Rounds
  import opened RoundsProperties
  import opened Budget
  import opened Compress
  import opened CompressProperties

  datatype CompressCall = CompressCall(appended: seq<Message>, policy: Policy, summarize: Compressor)

  /** Positions of the history: `sources` is the region the current summary was made from,
      directly or through the summaries it extends; `dropped` are the messages of rounds
      hard-dropped since. */
  datatype Ledger = Ledger(sources: set<nat>, dropped: set<nat>)

  datatype Session = Session(history: seq<Message>, cache: Cache, ledger: Ledger)

  const START := Session([], NO_CACHE, Ledger({}, {}))

  predicate Within(a: nat, i: nat, b: nat) { a <= i < b }

  function Range(a: nat, b: nat): set<nat> {
    set i: nat | i < b && Within(a, i, b)
  }

  /** The messages the summarizer read in a call that summarized, next to the old summary. */
  function Read(plan: Plan, c: Cache): set<nat> {
    match plan
    case Extend(split) => Range(c.covered, split)
    case Renew(split) => Range(0, split)
    case _ => {}
  }

  /** The messages the shrink loop dropped in a call. */
  function Shed(plan: Plan, after: Cache): set<nat> {
    if plan.Verbatim? || plan.Hit? then {} else Range(plan.split, after.covered)
  }

  function Booked(l: Ledger, plan: Plan, c: Cache, after: Step): Ledger {
    if after.reply.SummarizeFailed? then l
    else if plan.Renew? then Ledger(Read(plan, c), Shed(plan, after.cache))
    else Ledger(l.sources + Read(plan, c), l.dropped + Shed(plan, after.cache))
  }

  function StepOf(s: Session, call: CompressCall): Step
    requires call.policy.keepRecent >= 1
  {
    CompressStep(s.history + call.appended, call.policy, call.summarize, s.cache)
  }

  function Next(s: Session, call: CompressCall): Session
    requires call.policy.keepRecent >= 1
  {
    var history := s.history + call.appended;
    var step := StepOf(s, call);
    Session(history, step.cache, Booked(s.ledger, PlanFor(history, call.policy, s.cache), s.cache, step))
  }

  predicate Callable(calls: seq<CompressCall>) {
    forall k :: 0 <= k < |calls| ==> calls[k].policy.keepRecent >= 1
  }

  function After(calls: seq<CompressCall>, n: nat): Session
    requires Callable(calls) && n <= |calls|
  {
    if n == 0 then START else Next(After(calls, n - 1), calls[n - 1])
  }

  function HistoryAfter(calls: seq<CompressCall>, n: nat): seq<Message>
    requires n <= |calls|
  {
    if n == 0 then [] else HistoryAfter(calls, n - 1) + calls[n - 1].appended
  }

  /** The history is well-formed whenever compression is called. */
  ghost predicate Run(calls: seq<CompressCall>) {
    Callable(calls) && forall n :: 0 <= n <= |calls| ==> Paired(HistoryAfter(calls, n))
  }

  // ---- The history only grows ----------------------------------------------------------

  lemma {:induction false} HistoryIs(calls: seq<CompressCall>, n: nat)
    requires Callable(calls) && n <= |calls|
    ensures After(calls, n).history == HistoryAfter(calls, n)
  {
    if n > 0 {
      HistoryIs(calls, n - 1);
    }
  }

  lemma AlignedGrows(history: seq<Message>, more: seq<Message>, c: Cache)
    requires Aligned(history, c)
    ensures Aligned(history + more, c)
  {
    if c.covered > 0 {
      assert (history + more)[..c.covered] == history[..c.covered];
    }
  }

  // ---- Every message is accounted for -----------------------------------------------------

  /** Summarized and dropped messages are exactly the covered ones, without overlap; all
      other messages are in the verbatim tail. */
  predicate Accounted(c: Cache, l: Ledger) {
    l.sources !! l.dropped && l.sources + l.dropped == Range(0, c.covered)
  }

  lemma CommitCovers(history: seq<Message>, p: Policy, summarize: Compressor, c: Cache)
    requires p.keepRecent >= 1 && Paired(history) && Aligned(history, c)
    requires !PlanFor(history, p, c).Hit? && !PlanFor(history, p, c).Verbatim?
    ensures CompressStep(history, p, summarize, c).reply.Sent? ==>
              0 < PlanFor(history, p, c).split <= CompressStep(history, p, summarize, c).cache.covered
    ensures PlanFor(history, p, c).Reuse? ==> c.covered == PlanFor(history, p, c).split
    ensures PlanFor(history, p, c).Extend? ==> c.covered < PlanFor(history, p, c).split
  {
    PlanFits(history, p, c);
    SplitIsCut(history, p);
    if CompressStep(history, p, summarize, c).reply.Sent? {
      var summary := SentIsResummarized(PlanFor(history, p, c), history, p, summarize, c);
      ResummarizedAligned(history, p, SplitIndex(history, p), summary);
    }
  }

  lemma BookedAccounts(l: Ledger, plan: Plan, c: Cache, after: Step)
    requires Accounted(c, l)
    requires after.reply.SummarizeFailed? || plan.Hit? || plan.Verbatim? ==> after.cache == c
    requires !after.reply.SummarizeFailed? && !plan.Hit? && !plan.Verbatim? ==> plan.split <= after.cache.covered
    requires plan.Reuse? ==> c.covered == plan.split
    requires plan.Extend? ==> c.covered < plan.split
    ensures Accounted(after.cache, Booked(l, plan, c, after))
  {
    var l' := Booked(l, plan, c, after);
    if after.reply.Sent? && !plan.Hit? && !plan.Verbatim? {
      forall i: nat
        ensures i in l'.sources + l'.dropped <==> i in Range(0, after.cache.covered)
        ensures !(i in l'.sources && i in l'.dropped)
      {
        assert i in l.sources + l.dropped <==> i in Range(0, c.covered);
      }
    }
  }

  lemma NextAccounts(s: Session, call: CompressCall)
    requires call.policy.keepRecent >= 1 && Paired(s.history + call.appended)
    requires Aligned(s.history, s.cache) && Accounted(s.cache, s.ledger)
    ensures Accounted(Next(s, call).cache, Next(s, call).ledger)
  {
    var history := s.history + call.appended;
    var plan := PlanFor(history, call.policy, s.cache);
    AlignedGrows(s.history, call.appended, s.cache);
    CallConsistent(history, call.policy, call.summarize, s.cache);
    PlanFits(history, call.policy, s.cache);
    if !plan.Hit? && !plan.Verbatim? {
      CommitCovers(history, call.policy, call.summarize, s.cache);
    }
    BookedAccounts(s.ledger, plan, s.cache, StepOf(s, call));
  }

  // ---- Runs ----------------------------------------------------------------------------------

  ghost predicate Healthy(s: Session) {
    Paired(s.history) && Aligned(s.history, s.cache) && Accounted(s.cache, s.ledger)
  }

  lemma NextHealthy(s: Session, call: CompressCall)
    requires call.policy.keepRecent >= 1 && Healthy(s) && Paired(s.history + call.appended)
    ensures Healthy(Next(s, call))
    ensures Consistent(s.history + call.appended, s.cache, StepOf(s, call))
  {
    AlignedGrows(s.history, call.appended, s.cache);
    CallConsistent(s.history + call.appended, call.policy, call.summarize, s.cache);
    NextAccounts(s, call);
  }

  lemma StepPaired(calls: seq<CompressCall>, n: nat)
    requires Run(calls) && n < |calls|
    ensures Paired(After(calls, n).history + calls[n].appended)
    ensures After(calls, n).history + calls[n].appended == HistoryAfter(calls, n + 1)
  {
    HistoryIs(calls, n);
    assert Paired(HistoryAfter(calls, n + 1));
  }

  lemma {:induction false} RunHealthy(calls: seq<CompressCall>, n: nat)
    requires Run(calls) && n <= |calls|
    ensures Healthy(After(calls, n))
  {
    if n == 0 {
      assert Paired(HistoryAfter(calls, 0)) && HistoryAfter(calls, 0) == [];
      assert Range(0, 0) == {} && After(calls, 0) == START;
    } else {
      RunHealthy(calls, n - 1);
      StepPaired(calls, n - 1);
      NextHealthy(After(calls, n - 1), calls[n - 1]);
    }
  }

  /** Main result: after any number of calls the cache describes a prefix of the history
      that ends at a round boundary, and every covered message was either summarized or
      hard-dropped, and not both. */
  lemma RunInvariant(calls: seq<CompressCall>, n: nat)
    requires Run(calls) && n <= |calls|
    ensures var s := After(calls, n);
            s.history == HistoryAfter(calls, n) && Accounted(s.cache, s.ledger) &&
            (s.cache.covered > 0 ==>
               s.cache.covered <= |s.history| && IsBoundary(s.history, s.cache.covered) &&
               s.cache.coveredBytes == Bytes(s.history[..s.cache.covered]))
  {
    HistoryIs(calls, n);
    RunHealthy(calls, n);
    if After(calls, n).cache.covered > 0 {
      StartsAreCutSafe(After(calls, n).history, 0, After(calls, n).cache.covered);
    }
  }

  /** Main result: every reply of a run is the history as it stands, or the cached summary
      followed by exactly the messages the cache does not cover. */
  lemma RunReplies(calls: seq<CompressCall>, n: nat)
    requires Run(calls) && n < |calls|
    ensures Consistent(HistoryAfter(calls, n + 1), After(calls, n).cache, StepOf(After(calls, n), calls[n]))
    ensures StepOf(After(calls, n), calls[n]).cache == After(calls, n + 1).cache
  {
    RunHealthy(calls, n);
    StepPaired(calls, n);
    NextHealthy(After(calls, n), calls[n]);
  }
}
