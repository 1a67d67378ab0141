/** The compression cache agrees with the history it stands for, over every run
    (internal/contextmgmt/compress.go:161-331). */
module CompressProperties {
  import opened Provider
  import opened Pairing
  import opened PairingSpec
  import opened PairingProperties
  import opened Rounds
  import opened RoundsProperties
  import opened Budget
  import opened Progress
  import opened Compress

  // ---- Any list: what the shrink loop ends with ---------------------------------------

  lemma RepairKeepsHead(msgs: seq<Message>)
    requires msgs != [] && !IsAssistant(msgs[0]) && |msgs[0].content| == 1 && msgs[0].content[0].Text?
    ensures Repair(msgs) != [] && Repair(msgs)[0] == msgs[0]
  {
    var content := msgs[0].content;
    assert content[..0] == [];
    assert AnswersTo(content, []) == content;
    PartPlaced(Pieces(msgs), 0);
    assert Repair(msgs)[Start(Pieces(msgs), 0) + 0] == Piece(msgs, 0)[0];
  }

  lemma DropKeepsSummary(out: seq<Message>, summary: string)
    requires out != [] && out[0] == SummaryMessage(summary)
    ensures DropForBudget(out).Dropped? ==> DropForBudget(out).out != [] && DropForBudget(out).out[0] == out[0]
    ensures DropForBudget(out).Refused? ==> out == [out[0]]
  {
    var rounds := RoundsFrom(out, 0);
    RoundsPartition(out, 0);
    assert rounds[0] == Round(0, 1);
    if |rounds| > 1 {
      RepairKeepsHead([out[0]] + out[rounds[1].end..]);
    }
  }

  /** For every view that starts with a summary, the shrunk view starts with it too, and
      either no longer triggers compression or is the summary alone. */
  lemma {:induction false} ShrinkEnds(out: seq<Message>, p: Policy, summary: string)
    requires out != [] && out[0] == SummaryMessage(summary)
    ensures Shrink(out, p) != [] && Shrink(out, p)[0] == SummaryMessage(summary)
    ensures !ShouldCompress(Shrink(out, p), p) || Shrink(out, p) == [SummaryMessage(summary)]
    decreases Assistants(out), Lead(out)
  {
    DropsMakeProgress(out);
    DropKeepsSummary(out, summary);
    var drop := DropForBudget(out);
    if ShouldCompress(out, p) && drop.Dropped? {
      ShrinkEnds(drop.out, p, summary);
    }
  }

  // ---- Well-formed histories --------------------------------------------------------------

  /** The cache describes a prefix of the history that ends at a round boundary. */
  ghost predicate Aligned(history: seq<Message>, c: Cache) {
    c.covered == 0 ||
    (c.covered <= |history| && CutSafe(history, c.covered) && c.coveredBytes == Bytes(history[..c.covered]))
  }

  lemma CompressedPaired(summary: string, history: seq<Message>, from: nat)
    requires Paired(history) && from <= |history| && CutSafe(history, from)
    ensures Paired(Compressed(summary, history, from))
    ensures Repair(Compressed(summary, history, from)) == Compressed(summary, history, from)
  {
    SummaryIsPlain(summary);
    SafeCut(history, from);
    PlainFirst(SummaryMessage(summary), history[from..]);
    StrictUntouched(Compressed(summary, history, from));
  }

  lemma SecondRound(out: seq<Message>)
    requires |out| > 1 && RoundEnd(out, 0) == 1
    ensures |RoundsFrom(out, 0)| > 1 && RoundsFrom(out, 0)[1].end == RoundEnd(out, 1)
  {
    var end := RoundEnd(out, 1);
    assert RoundsFrom(out, 0) == [Round(0, 1)] + ([Round(1, end)] + RoundsFrom(out, end));
  }

  /** In a well-formed view led by a summary, a drop takes the second round. */
  lemma DropIsSecond(out: seq<Message>)
    requires Paired(out) && |out| > 1 && IsSummary(out[0])
    ensures DropForBudget(out) == Dropped([out[0]] + out[RoundEnd(out, 1)..])
  {
    SummaryHead(out);
    SecondRound(out);
    DropSecond(out);
  }

  /** One drop takes exactly the oldest kept round. */
  lemma DropOne(summary: string, history: seq<Message>, from: nat) returns (to: nat)
    requires Paired(history) && from < |history| && CutSafe(history, from)
    ensures from < to <= |history| && CutSafe(history, to)
    ensures DropForBudget(Compressed(summary, history, from)) == Dropped(Compressed(summary, history, to))
  {
    var out := Compressed(summary, history, from);
    CompressedPaired(summary, history, from);
    SummaryIsPlain(summary);
    CutAfterRound(out, 1);
    DropIsSecond(out);
    to := ViewCut(summary, history, from, RoundEnd(out, 1));
  }

  /** A cut of the view is a cut of the history. */
  lemma ViewCut(summary: string, history: seq<Message>, from: nat, end: nat) returns (to: nat)
    requires from < |history| && 1 < end <= |Compressed(summary, history, from)|
    requires CutSafe(Compressed(summary, history, from), end)
    ensures from < to <= |history| && CutSafe(history, to)
    ensures var out := Compressed(summary, history, from);
            [out[0]] + out[end..] == Compressed(summary, history, to)
  {
    to := from + end - 1;
    assert Compressed(summary, history, from)[end - 1] == history[to - 1];
  }

  lemma NothingToDrop(summary: string)
    ensures DropForBudget([SummaryMessage(summary)]) == Refused
  {
    var out := [SummaryMessage(summary)];
    assert RoundsFrom(out, 0) == [Round(0, 1)] + RoundsFrom(out, 1);
  }

  /** The shrunk view is the summary and a later tail of the history. */
  lemma {:induction false} ShrinkKeepsTail(summary: string, history: seq<Message>, from: nat, p: Policy)
    returns (to: nat)
    requires Paired(history) && from <= |history| && CutSafe(history, from)
    ensures from <= to <= |history| && CutSafe(history, to)
    ensures Shrink(Compressed(summary, history, from), p) == Compressed(summary, history, to)
    decreases |history| - from
  {
    to := from;
    var out := Compressed(summary, history, from);
    DropsMakeProgress(out);
    if from < |history| {
      var next := DropOne(summary, history, from);
      if ShouldCompress(out, p) {
        to := ShrinkKeepsTail(summary, history, next, p);
      }
    } else {
      assert out == [SummaryMessage(summary)];
      NothingToDrop(summary);
    }
  }

  // ---- One call ----------------------------------------------------------------------------

  /** What a call may answer: the history as it is, or the cached summary followed by
      everything the cache does not cover. A failure changes nothing. */
  ghost predicate Consistent(history: seq<Message>, c: Cache, s: Step) {
    && Aligned(history, s.cache)
    && match s.reply
       case SummarizeFailed => s.cache == c
       case Sent(view) =>
         (view == history && s.cache == c) ||
         (0 < s.cache.covered <= |history| && view == Compressed(s.cache.summary, history, s.cache.covered))
  }

  lemma SplitIsCut(history: seq<Message>, p: Policy)
    requires Paired(history) && 1 <= p.keepRecent < |RoundsFrom(history, 0)|
    ensures 0 < SplitIndex(history, p) && CutSafe(history, SplitIndex(history, p))
  {
    var rounds := RoundsFrom(history, 0);
    var k := |rounds| - p.keepRecent;
    RoundsPartition(history, 0);
    assert rounds[k].start == rounds[k - 1].end;
    assert rounds[k] in rounds;
    StartsAreCutSafe(history, 0, rounds[k].start);
  }

  lemma ResummarizedAligned(history: seq<Message>, p: Policy, split: nat, summary: string)
    requires Paired(history) && 0 < split <= |history| && CutSafe(history, split)
    ensures var s := Resummarized(history, p, split, summary);
            Aligned(history, s.cache) && split <= s.cache.covered <= |history| && s.cache.summary == summary &&
            s.reply == Sent(Compressed(summary, history, s.cache.covered))
    ensures Resummarized(history, p, split, summary).reply == Sent(Shrink(Compressed(summary, history, split), p))
  {
    CompressedPaired(summary, history, split);
    var to := ShrinkKeepsTail(summary, history, split, p);
    CommittedTail(history, split, summary, to);
  }

  /** The hard drops are exactly the messages the coverage advances past. */
  lemma CommittedTail(history: seq<Message>, split: nat, summary: string, to: nat)
    requires split <= to <= |history|
    ensures var view := Compressed(summary, history, to);
            Committed(history, split, summary, view, |Compressed(summary, history, split)| - |view|) ==
            Step(Sent(view), Cache(to, Bytes(history[..to]), summary))
  {
  }

  /** Main result for one call: the reply and the new cache agree with each other and with
      the history. */
  lemma CallConsistent(history: seq<Message>, p: Policy, summarize: Compressor, c: Cache)
    requires p.keepRecent >= 1 && Paired(history) && Aligned(history, c)
    ensures Consistent(history, c, CompressStep(history, p, summarize, c))
  {
    PlanFits(history, p, c);
    match PlanFor(history, p, c)
    case Verbatim =>
    case Hit => CompressedPaired(c.summary, history, c.covered);
    case Reuse(split) =>
      SplitIsCut(history, p);
      ResummarizedAligned(history, p, split, c.summary);
    case Extend(split) =>
      SplitIsCut(history, p);
      SummarizedAligned(history, p, summarize, c, split);
    case Renew(split) =>
      SplitIsCut(history, p);
      SummarizedAligned(history, p, summarize, c, split);
  }

  lemma SummarizedAligned(history: seq<Message>, p: Policy, summarize: Compressor, c: Cache, split: nat)
    requires p.keepRecent >= 1 && Paired(history) && Aligned(history, c)
    requires PlanFor(history, p, c) == Extend(split) || PlanFor(history, p, c) == Renew(split)
    requires 0 < split <= |history| && CutSafe(history, split)
    ensures Consistent(history, c, CompressStep(history, p, summarize, c))
  {
    PlanFits(history, p, c);
    match summarize(Request(PlanFor(history, p, c), history, c).value)
    case None =>
    case Some(summary) => ResummarizedAligned(history, p, split, summary);
  }

  /** A cache hit asks nothing of the summarizer, changes nothing, and fits the budget. */
  lemma HitFits(history: seq<Message>, p: Policy, summarize: Compressor, c: Cache)
    requires p.keepRecent >= 1 && PlanFor(history, p, c).Hit?
    ensures c.covered <= |history| && Request(Hit, history, c).None?
    ensures var s := CompressStep(history, p, summarize, c);
            s.cache == c && s.reply.Sent? && Tokens(s.reply.view) <= p.maxTokens
  {
    PlanFits(history, p, c);
  }

  lemma SentIsResummarized(plan: Plan, history: seq<Message>, p: Policy, summarize: Compressor, c: Cache)
    returns (summary: string)
    requires Fits(plan, history, c) && !plan.Verbatim? && !plan.Hit?
    requires Execute(plan, history, p, summarize, c).reply.Sent?
    ensures Execute(plan, history, p, summarize, c) == Resummarized(history, p, plan.split, summary)
    ensures summary == Execute(plan, history, p, summarize, c).cache.summary
  {
    summary := if plan.Reuse? then c.summary else summarize(Request(plan, history, c).value).value;
  }

  /** Every other compressed view is under the trigger, unless only the summary is left. */
  lemma RestFits(history: seq<Message>, p: Policy, summarize: Compressor, c: Cache)
    requires p.keepRecent >= 1 && Paired(history)
    requires !PlanFor(history, p, c).Hit? && !PlanFor(history, p, c).Verbatim?
    ensures var s := CompressStep(history, p, summarize, c);
            s.reply.Sent? ==> !ShouldCompress(s.reply.view, p) || s.reply.view == [SummaryMessage(s.cache.summary)]
  {
    if CompressStep(history, p, summarize, c).reply.Sent? {
      var summary, view := SentIsShrunk(history, p, summarize, c);
      ShrinkEnds(view, p, summary);
    }
  }

  lemma PlanSplits(history: seq<Message>, p: Policy, c: Cache)
    requires p.keepRecent >= 1 && Paired(history)
    requires !PlanFor(history, p, c).Hit? && !PlanFor(history, p, c).Verbatim?
    ensures var split := PlanFor(history, p, c).split;
            Fits(PlanFor(history, p, c), history, c) && 0 < split <= |history| && CutSafe(history, split)
  {
    PlanFits(history, p, c);
    SplitIsCut(history, p);
  }

  lemma ResummarizedShrinks(history: seq<Message>, p: Policy, split: nat, summary: string)
    requires Paired(history) && split <= |history| && CutSafe(history, split)
    ensures var s := Resummarized(history, p, split, summary);
            s.reply == Sent(Shrink(Compressed(summary, history, split), p)) && s.cache.summary == summary
  {
    CompressedPaired(summary, history, split);
  }

  lemma SentIsShrunk(history: seq<Message>, p: Policy, summarize: Compressor, c: Cache)
    returns (summary: string, view: seq<Message>)
    requires p.keepRecent >= 1 && Paired(history)
    requires !PlanFor(history, p, c).Hit? && !PlanFor(history, p, c).Verbatim?
    requires CompressStep(history, p, summarize, c).reply.Sent?
    ensures view != [] && view[0] == SummaryMessage(summary) &&
            CompressStep(history, p, summarize, c).cache.summary == summary
    ensures CompressStep(history, p, summarize, c).reply.view == Shrink(view, p)
  {
    var plan := PlanFor(history, p, c);
    PlanSplits(history, p, c);
    summary := SentIsResummarized(plan, history, p, summarize, c);
    ResummarizedShrinks(history, p, plan.split, summary);
    view := Compressed(summary, history, plan.split);
  }

}
