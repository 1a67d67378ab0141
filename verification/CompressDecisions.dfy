/** When compression happens, what it asks for, and what it keeps
    (internal/contextmgmt/compress.go:194-331). */
module CompressDecisions {
  import opened Provider
  import opened Pairing
  import opened PairingSpec
  import opened PairingProperties
  import opened Rounds
  import opened RoundsProperties
  import opened Budget
  import opened Progress
  import opened Compress
  import opened CompressProperties
  import opened CompressRuns

  // ---- Where the history is split --------------------------------------------------------

  /** The last n rounds of the history start at `split`. */
  ghost predicate KeepsRounds(history: seq<Message>, split: nat, n: int) {
    split <= |history| && IsBoundary(history, split) && |RoundsFrom(history, split)| == n
  }

  lemma {:induction false} RoundsSuffix(msgs: seq<Message>, i: nat, k: nat)
    requires i <= |msgs| && k < |RoundsFrom(msgs, i)|
    ensures RoundsFrom(msgs, RoundsFrom(msgs, i)[k].start) == RoundsFrom(msgs, i)[k..]
    decreases |msgs| - i
  {
    if k > 0 {
      RoundsSuffix(msgs, RoundEnd(msgs, i), k - 1);
    }
  }

  lemma SplitKeeps(history: seq<Message>, p: Policy)
    requires 1 <= p.keepRecent < |RoundsFrom(history, 0)|
    ensures KeepsRounds(history, SplitIndex(history, p), p.keepRecent) && 0 < SplitIndex(history, p)
  {
    var rounds := RoundsFrom(history, 0);
    var k := |rounds| - p.keepRecent;
    RoundsSuffix(history, 0, k);
    RoundsPartition(history, 0);
    assert rounds[k] in rounds && rounds[k].start == rounds[k - 1].end;
  }

  // ---- When nothing happens, and when something does -----------------------------------------

  /** There is something to compress: the estimate is over the trigger, and not all rounds
      are to be kept. */
  ghost predicate Crowded(history: seq<Message>, p: Policy) {
    OverTrigger(history, p) && p.keepRecent < |RoundsFrom(history, 0)|
  }

  /** Main result: otherwise the history is sent as it is, the summarizer is not asked, and
      the cache stays. */
  lemma LeftAlone(history: seq<Message>, p: Policy, summarize: Compressor, c: Cache)
    requires p.keepRecent >= 1 && !Crowded(history, p)
    ensures CompressStep(history, p, summarize, c) == Step(Sent(history), c)
  {
    TriggerIs(history, p);
  }

  /** What a crowded history is answered with: the cached summary with everything it does not
      cover, while that fits the budget; otherwise a summary of all but the kept rounds, made
      from the old one and what came since when the cache still describes the history, and
      not made again when nothing came since. */
  ghost predicate Answers(history: seq<Message>, p: Policy, c: Cache, split: nat, asked: Option<seq<Message>>)
    requires split <= |history|
  {
    if c.covered == 0 || c.covered > split || c.coveredBytes != Bytes(history[..c.covered]) then
      asked == Some(history[..split])
    else if Tokens(Repair([SummaryMessage(c.summary)] + history[c.covered..])) <= p.maxTokens || c.covered == split then
      asked == None
    else
      asked == Some([SummaryMessage(c.summary)] + history[c.covered..split])
  }

  /** Main result: what the summarizer is asked for. */
  lemma AskedExactly(history: seq<Message>, p: Policy, c: Cache) returns (split: nat)
    requires p.keepRecent >= 1 && Crowded(history, p)
    ensures KeepsRounds(history, split, p.keepRecent) && 0 < split
    ensures var plan := PlanFor(history, p, c);
            Fits(plan, history, c) && Answers(history, p, c, split, Request(plan, history, c))
  {
    TriggerIs(history, p);
    PlanFits(history, p, c);
    SplitKeeps(history, p);
    split := SplitIndex(history, p);
  }

  /** The cached view serves: the cache describes the history, and with everything since it
      fits the budget. */
  ghost predicate Serves(history: seq<Message>, p: Policy, c: Cache, split: nat)
    requires split <= |history|
  {
    0 < c.covered <= split && c.coveredBytes == Bytes(history[..c.covered]) &&
    Tokens(Repair([SummaryMessage(c.summary)] + history[c.covered..])) <= p.maxTokens
  }

  /** Main result: the outcome of a crowded call. The view built is the summary and exactly
      the kept rounds; the summary is the old one or what the summarizer answered. */
  lemma Outcome(history: seq<Message>, p: Policy, summarize: Compressor, c: Cache, asked: Option<seq<Message>>)
    returns (split: nat)
    requires p.keepRecent >= 1 && Crowded(history, p)
    requires asked == (PlanFits(history, p, c); Request(PlanFor(history, p, c), history, c))
    ensures KeepsRounds(history, split, p.keepRecent) && 0 < split
    ensures var s := CompressStep(history, p, summarize, c);
            if Serves(history, p, c, split) then
              s == Step(Sent(Repair([SummaryMessage(c.summary)] + history[c.covered..])), c)
            else if asked.Some? && summarize(asked.value).None? then s == Step(SummarizeFailed, c)
            else
              var summary := if asked.Some? then summarize(asked.value).value else c.summary;
              s.cache.summary == summary && s.cache.covered >= split &&
              s.reply == Sent(Shrink(Repair([SummaryMessage(summary)] + history[split..]), p))
  {
    TriggerIs(history, p);
    PlanFits(history, p, c);
    SplitKeeps(history, p);
    split := SplitIndex(history, p);
  }

  lemma CachedLeads(history: seq<Message>, c: Cache)
    requires c.covered <= |history|
    ensures CachedView(history, c) != [] && CachedView(history, c)[0] == SummaryMessage(c.summary)
  {
    RepairKeepsHead(Compressed(c.summary, history, c.covered));
  }

  /** Main result: over the trigger, with more rounds than are to be kept, a reply never is
      the raw history: it starts with the summary the cache then holds. */
  lemma CrowdedLeads(history: seq<Message>, p: Policy, summarize: Compressor, c: Cache)
    requires p.keepRecent >= 1 && Crowded(history, p)
    ensures var s := CompressStep(history, p, summarize, c);
            s.reply.Sent? ==>
              s.reply.view != [] &&
              s.reply.view[0] ==
                Message(RoleUser, [Text("[Earlier conversation summarized]\n" + s.cache.summary, false)])
  {
    TriggerIs(history, p);
    PlanFits(history, p, c);
    var plan := PlanFor(history, p, c);
    if plan.Hit? {
      CachedLeads(history, c);
    } else if CompressStep(history, p, summarize, c).reply.Sent? {
      var summary := SentIsResummarized(plan, history, p, summarize, c);
      RepairKeepsHead(Compressed(summary, history, plan.split));
      ShrinkEnds(Repair(Compressed(summary, history, plan.split)), p, summary);
    }
  }

  /** On a well-formed history the reply is that summary and exactly what it does not cover,
      with at least one message covered. */
  lemma CrowdedCovers(history: seq<Message>, p: Policy, summarize: Compressor, c: Cache)
    requires p.keepRecent >= 1 && Crowded(history, p) && Paired(history) && Aligned(history, c)
    ensures var s := CompressStep(history, p, summarize, c); s.reply.Sent? ==> Covers(history, s)
  {
    TriggerIs(history, p);
    if PlanFor(history, p, c).Hit? {
      HitCovers(history, p, summarize, c);
    } else {
      OtherCovers(history, p, summarize, c);
    }
  }

  /** What was sent is the summary of the cache and the messages it does not cover, one being
      covered at least. */
  predicate Covers(history: seq<Message>, s: Step) {
    s.reply.Sent? && 0 < s.cache.covered <= |history| &&
    s.reply.view == [SummaryMessage(s.cache.summary)] + history[s.cache.covered..]
  }

  lemma HitCovers(history: seq<Message>, p: Policy, summarize: Compressor, c: Cache)
    requires p.keepRecent >= 1 && PlanFor(history, p, c).Hit? && Paired(history) && Aligned(history, c)
    ensures Covers(history, CompressStep(history, p, summarize, c))
  {
    PlanFits(history, p, c);
    CompressedPaired(c.summary, history, c.covered);
  }

  lemma OtherCovers(history: seq<Message>, p: Policy, summarize: Compressor, c: Cache)
    requires p.keepRecent >= 1 && CompressionDue(history, p) && Paired(history) && !PlanFor(history, p, c).Hit?
    ensures var s := CompressStep(history, p, summarize, c); s.reply.Sent? ==> Covers(history, s)
  {
    var plan := PlanFor(history, p, c);
    PlanFits(history, p, c);
    SplitsThere(history, p, c);
    ExecutedCovers(plan, history, p, summarize, c);
  }

  lemma SplitsThere(history: seq<Message>, p: Policy, c: Cache)
    requires p.keepRecent >= 1 && CompressionDue(history, p) && !PlanFor(history, p, c).Hit?
    ensures !PlanFor(history, p, c).Verbatim? && PlanFor(history, p, c).split == SplitIndex(history, p)
  {
  }

  lemma ExecutedCovers(plan: Plan, history: seq<Message>, p: Policy, summarize: Compressor, c: Cache)
    requires p.keepRecent >= 1 && CompressionDue(history, p) && Paired(history) && Fits(plan, history, c)
    requires !plan.Hit? && !plan.Verbatim? && plan.split == SplitIndex(history, p)
    ensures var s := Execute(plan, history, p, summarize, c); s.reply.Sent? ==> Covers(history, s)
  {
    if Execute(plan, history, p, summarize, c).reply.Sent? {
      var summary := SentIsResummarized(plan, history, p, summarize, c);
      RenewedCovers(history, p, summary);
    }
  }

  lemma RenewedCovers(history: seq<Message>, p: Policy, summary: string)
    requires p.keepRecent >= 1 && CompressionDue(history, p) && Paired(history)
    ensures Covers(history, Resummarized(history, p, SplitIndex(history, p), summary))
  {
    SplitIsCut(history, p);
    ResummarizedAligned(history, p, SplitIndex(history, p), summary);
  }

  // ---- How much the shrink loop drops -----------------------------------------------------------

  /** The round dropped next is the oldest kept one: nothing between its ends can be cut. */
  lemma NextCut(history: seq<Message>, from: nat, to: nat, k: nat)
    requires Paired(history) && from < |history| && CutSafe(history, from) && to == RoundEnd(history, from)
    requires from < k < to
    ensures !CutSafe(history, k)
  {
    StrictRoundEnd(history, from);
  }

  /** The oldest kept round, in the view. */
  lemma RoundInView(summary: string, history: seq<Message>, from: nat) returns (end: nat)
    requires Paired(history) && from < |history| && CutSafe(history, from)
    ensures end == RoundEnd(history, from) && CutSafe(history, end)
    ensures var out := Compressed(summary, history, from);
            Paired(out) && IsSummary(out[0]) && RoundEnd(out, 1) == end - from + 1
  {
    var out := Compressed(summary, history, from);
    CompressedPaired(summary, history, from);
    SummaryIsPlain(summary);
    StrictRoundEnd(out, 1);
    StrictRoundEnd(history, from);
    CutAfterRound(history, from);
    assert out[1] == history[from];
    end := RoundEnd(history, from);
  }

  /** A drop takes the oldest kept round of the history. */
  lemma DropsOneRound(summary: string, history: seq<Message>, from: nat)
    requires Paired(history) && from < |history| && CutSafe(history, from)
    ensures CutSafe(history, RoundEnd(history, from))
    ensures DropForBudget(Compressed(summary, history, from)) ==
            Dropped(Compressed(summary, history, RoundEnd(history, from)))
  {
    var end := RoundInView(summary, history, from);
    DropIsSecond(Compressed(summary, history, from));
    TailBehind(summary, history, from, end);
  }

  lemma TailBehind(summary: string, history: seq<Message>, from: nat, end: nat)
    requires from < end <= |history|
    ensures var out := Compressed(summary, history, from);
            [out[0]] + out[end - from + 1..] == Compressed(summary, history, end)
  {
  }

  /** Main result: the loop drops no more than it has to. Every view with an older cut still
      exceeds the trigger. */
  lemma {:induction false} ShrinkNeeded(summary: string, history: seq<Message>, from: nat, to: nat, p: Policy)
    requires Paired(history) && from <= to <= |history| && CutSafe(history, from)
    requires Shrink(Compressed(summary, history, from), p) == Compressed(summary, history, to)
    ensures forall k :: from <= k < to && CutSafe(history, k) ==> OverTrigger(Compressed(summary, history, k), p)
    decreases |history| - from
  {
    if from < to {
      var out, end := Compressed(summary, history, from), RoundEnd(history, from);
      TriggerIs(out, p);
      DropsOneRound(summary, history, from);
      DropsMakeProgress(out);
      assert |Compressed(summary, history, to)| < |out|;
      var last := ShrinkKeepsTail(summary, history, end, p);
      assert |Compressed(summary, history, last)| == |Compressed(summary, history, to)|;
      ShrinkNeeded(summary, history, end, to, p);
      forall k | from <= k < to && CutSafe(history, k) ensures OverTrigger(Compressed(summary, history, k), p) {
        if from < k < end {
          NextCut(history, from, end, k);
        }
      }
    }
  }

  // ---- The ledger is about what was asked --------------------------------------------------------

  /** The messages the ledger books as read are those the summarizer was given, behind the
      summary it extends. */
  lemma ReadIsAsked(history: seq<Message>, p: Policy, c: Cache) returns (a: nat, b: nat)
    requires p.keepRecent >= 1
    ensures var plan := PlanFor(history, p, c);
            Fits(plan, history, c) &&
            match Request(plan, history, c)
            case None => Read(plan, c) == {}
            case Some(asked) =>
              a <= b <= |history| && Read(plan, c) == Range(a, b) &&
              asked == (if a > 0 then [SummaryMessage(c.summary)] else []) + history[a..b] && (a > 0 ==> a == c.covered)
  {
    PlanFits(history, p, c);
    match PlanFor(history, p, c)
    case Extend(split) => a, b := c.covered, split;
    case Renew(split) => a, b := 0, split; assert [] + history[0..split] == history[..split];
    case _ => a, b := 0, 0;
  }

  // ---- Summaries -----------------------------------------------------------------------------

  /** The message starts like a summary of this text. */
  ghost predicate Summarizes(m: Message, text: string) {
    m.role == RoleUser && m.content != [] && m.content[0].Text? &&
    m.content[0].text == "[Earlier conversation summarized]\n" + text
  }

  /** A message counts as a summary exactly when it starts like one; the message made for a
      summary does, and the summary can be read off it. */
  lemma SummariesAre(m: Message)
    ensures IsSummary(m) <==> exists text :: Summarizes(m, text)
    ensures forall text, other :: m == SummaryMessage(text) ==> (Summarizes(m, other) <==> other == text)
  {
    var n := |SUMMARY_PREFIX|;
    if IsSummary(m) {
      assert m.content[0].text == SUMMARY_PREFIX + m.content[0].text[n..];
      assert Summarizes(m, m.content[0].text[n..]);
    }
    forall text, other | m == SummaryMessage(text) ensures Summarizes(m, other) <==> other == text {
      assert (SUMMARY_PREFIX + text)[n..] == text && (SUMMARY_PREFIX + other)[n..] == other;
    }
  }
}
