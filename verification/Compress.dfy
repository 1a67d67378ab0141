/** Online compression of the working view with a per-run cache
    (internal/contextmgmt/compress.go:137-331). */
module Compress {
  import opened Provider
  import opened Pairing
  import opened PairingSpec
  import opened Rounds
  import opened Budget
  import opened Progress

  datatype Policy = Policy(maxTokens: int, threshold: real, keepRecent: int)

  /** The summarizer: None stands for an error. */
  type Compressor = seq<Message> -> Option<string>

  predicate ShouldCompress(history: seq<Message>, p: Policy) {
    p.maxTokens > 0 && p.threshold > 0.0 &&
    Tokens(history) > (p.maxTokens as real * p.threshold).Floor
  }

  /** The estimate exceeds the share of the budget at which compression starts. */
  predicate Exceeds(tokens: nat, p: Policy) {
    p.maxTokens > 0 && p.threshold > 0.0 && tokens as real > p.maxTokens as real * p.threshold
  }

  predicate OverTrigger(history: seq<Message>, p: Policy) {
    Exceeds(Tokens(history), p)
  }

  lemma TriggerIs(history: seq<Message>, p: Policy)
    ensures ShouldCompress(history, p) <==> OverTrigger(history, p)
  {
  }

  // ---- The cache ----------------------------------------------------------------------

  datatype Cache = Cache(covered: nat, coveredBytes: nat, summary: string)

  const NO_CACHE := Cache(0, 0, "")

  function Advanced(c: Cache, dropped: seq<Message>): Cache {
    if c.covered == 0 then c
    else c.(covered := c.covered + |dropped|, coveredBytes := c.coveredBytes + Bytes(dropped))
  }

  class CompressionCache {
    var covered: nat
    var coveredBytes: nat
    var summary: string

    function Value(): Cache
      reads this
    {
      Cache(covered, coveredBytes, summary)
    }

    constructor ()
      ensures Value() == NO_CACHE
    {
      covered, coveredBytes, summary := 0, 0, "";
    }

    method Advance(dropped: seq<Message>)
      modifies this
      ensures Value() == Advanced(old(Value()), dropped)
    {
      if covered == 0 {
        return;
      }
      var bytes := MeasureBytes(dropped);
      covered := covered + |dropped|;
      coveredBytes := coveredBytes + bytes;
    }

    method Invalidate()
      modifies this
      ensures Value() == NO_CACHE
    {
      covered, coveredBytes, summary := 0, 0, "";
    }
  }

  // ---- Shrinking to the budget ----------------------------------------------------------

  /** One iteration of the shrink loop: the summary is preserved while another round remains,
      and the last kept round goes before the summary does. */
  function DropForBudget(out: seq<Message>): Drop {
    var drop := DropOldestRoundPreservingSummary(out);
    if drop.Dropped? then drop else DropOldestKeepingSummary(out)
  }

  function Shrink(out: seq<Message>, p: Policy): seq<Message>
    decreases Assistants(out), Lead(out)
  {
    if !ShouldCompress(out, p) then out else
    var drop := DropForBudget(out);
    if drop.Refused? then out else
    DropsMakeProgress(out);
    Shrink(drop.out, p)
  }

  /** The cache after hard drops took `lost` messages off the view behind position split. */
  function Honest(c: Cache, history: seq<Message>, split: nat, lost: int): Cache {
    if lost > 0 && split + lost <= |history|
    then c.(covered := split + lost, coveredBytes := Bytes(history[..split + lost]))
    else c
  }

  method ShrinkToBudget(out0: seq<Message>, history: seq<Message>, split: nat, p: Policy, cache: CompressionCache?)
    returns (out: seq<Message>)
    modifies cache
    ensures out == Shrink(out0, p)
    ensures cache != null ==> cache.Value() == Honest(old(cache.Value()), history, split, |out0| - |out|)
  {
    out := out0;
    var over := ShouldCompress(out, p);
    while over
      invariant Shrink(out0, p) == Shrink(out, p)
      invariant over == ShouldCompress(out, p)
      invariant cache != null ==> cache.Value() == old(cache.Value())
      decreases Assistants(out), Lead(out), over
    {
      DropsMakeProgress(out);
      var drop := DropOldestRoundPreservingSummary(out);
      if drop.Refused? {
        drop := DropOldestKeepingSummary(out);
        if drop.Refused? {
          break;
        }
      }
      out := drop.out;
      over := ShouldCompress(out, p);
    }
    if cache != null && |out| < |out0| {
      var advance := split + (|out0| - |out|);
      if advance <= |history| {
        var bytes := MeasureBytes(history[..advance]);
        cache.covered, cache.coveredBytes := advance, bytes;
      }
    }
  }

  // ---- Compression ------------------------------------------------------------------------

  /** Which way one call takes. Positions are message counts of the history. */
  datatype Plan =
    | Verbatim                 // under the threshold, or nothing old enough to summarize
    | Hit                      // the cached summary still fits with everything since
    | Reuse(split: nat)        // the cache covers exactly the part to summarize
    | Extend(split: nat)       // summarize the cached summary and what came since
    | Renew(split: nat)        // summarize the whole part

  function Compressed(summary: string, history: seq<Message>, from: nat): seq<Message>
    requires from <= |history|
  {
    [SummaryMessage(summary)] + history[from..]
  }

  predicate CompressionDue(history: seq<Message>, p: Policy) {
    ShouldCompress(history, p) && p.keepRecent < |RoundsFrom(history, 0)|
  }

  /** The first message of the rounds kept verbatim. */
  function SplitIndex(history: seq<Message>, p: Policy): (split: nat)
    requires 1 <= p.keepRecent < |RoundsFrom(history, 0)|
    ensures split <= |history|
  {
    var rounds := RoundsFrom(history, 0);
    rounds[|rounds| - p.keepRecent].start
  }

  predicate CacheValid(history: seq<Message>, c: Cache, split: nat)
    requires split <= |history|
  {
    0 < c.covered <= split && c.coveredBytes == Bytes(history[..c.covered])
  }

  function CachedView(history: seq<Message>, c: Cache): seq<Message>
    requires c.covered <= |history|
  {
    Repair(Compressed(c.summary, history, c.covered))
  }

  function PlanAt(history: seq<Message>, p: Policy, c: Cache, split: nat): Plan
    requires split <= |history|
  {
    if !CacheValid(history, c, split) then Renew(split)
    else if Tokens(CachedView(history, c)) <= p.maxTokens then Hit
    else if c.covered == split then Reuse(split)
    else Extend(split)
  }

  function PlanFor(history: seq<Message>, p: Policy, c: Cache): Plan
    requires p.keepRecent >= 1
  {
    if CompressionDue(history, p) then PlanAt(history, p, c, SplitIndex(history, p)) else Verbatim
  }

  /** The positions a plan mentions are positions of the history. */
  predicate Fits(plan: Plan, history: seq<Message>, c: Cache) {
    match plan
    case Verbatim => true
    case Hit => c.covered <= |history|
    case Reuse(split) => split <= |history|
    case Extend(split) => c.covered <= split <= |history|
    case Renew(split) => split <= |history|
  }

  /** What the summarizer is asked to summarize, if it is asked at all. */
  function Request(plan: Plan, history: seq<Message>, c: Cache): Option<seq<Message>>
    requires Fits(plan, history, c)
  {
    match plan
    case Extend(split) => Some([SummaryMessage(c.summary)] + history[c.covered..split])
    case Renew(split) => Some(history[..split])
    case _ => None
  }

  datatype Reply = Sent(view: seq<Message>) | SummarizeFailed

  datatype Step = Step(reply: Reply, cache: Cache)

  /** The outcome when `lost` messages of the view built at position split were dropped. */
  function Committed(history: seq<Message>, split: nat, summary: string, view: seq<Message>, lost: int): Step
    requires split <= |history|
  {
    Step(Sent(view), Honest(Cache(split, Bytes(history[..split]), summary), history, split, lost))
  }

  /** The outcome once the summary of history[..split] is known. */
  function Resummarized(history: seq<Message>, p: Policy, split: nat, summary: string): Step
    requires split <= |history|
  {
    var built := Repair(Compressed(summary, history, split));
    var view := Shrink(built, p);
    Committed(history, split, summary, view, |built| - |view|)
  }

  function Execute(plan: Plan, history: seq<Message>, p: Policy, summarize: Compressor, c: Cache): Step
    requires Fits(plan, history, c)
  {
    match plan
    case Verbatim => Step(Sent(history), c)
    case Hit => Step(Sent(CachedView(history, c)), c)
    case Reuse(split) => Resummarized(history, p, split, c.summary)
    case _ =>
      match summarize(Request(plan, history, c).value)
      case None => Step(SummarizeFailed, c)
      case Some(summary) => Resummarized(history, p, plan.split, summary)
  }

  lemma PlanFits(history: seq<Message>, p: Policy, c: Cache)
    requires p.keepRecent >= 1
    ensures Fits(PlanFor(history, p, c), history, c)
  {
  }

  function CompressStep(history: seq<Message>, p: Policy, summarize: Compressor, c: Cache): Step
    requires p.keepRecent >= 1
  {
    PlanFits(history, p, c);
    Execute(PlanFor(history, p, c), history, p, summarize, c)
  }

  // ---- The source's method ------------------------------------------------------------------

  ghost function ValueOf(cache: CompressionCache?): Cache
    reads cache
  {
    if cache == null then NO_CACHE else cache.Value()
  }

  /** The decision part: which rounds to summarize, and whether the cache can serve them. */
  method Decide(history: seq<Message>, p: Policy, cache: CompressionCache?) returns (plan: Plan)
    requires p.keepRecent >= 1
    ensures plan == PlanFor(history, p, ValueOf(cache))
  {
    if !ShouldCompress(history, p) {
      return Verbatim;
    }
    var rounds := GroupRounds(history);
    if p.keepRecent >= |rounds| {
      return Verbatim;
    }
    var split := rounds[|rounds| - p.keepRecent].start;
    if cache == null || cache.covered == 0 || cache.covered > split {
      return Renew(split);
    }
    var bytes := MeasureBytes(history[..cache.covered]);
    if cache.coveredBytes != bytes {
      return Renew(split);
    }
    var candidate := EnsurePairing([SummaryMessage(cache.summary)] + history[cache.covered..]);
    var tokens := EstimateTokens(candidate);
    plan := if tokens <= p.maxTokens then Hit
            else if cache.covered == split then Reuse(split) else Extend(split);
  }

  method CompressWithCache(history: seq<Message>, p: Policy, summarize: Compressor, cache: CompressionCache?)
    returns (reply: Reply, asked: Option<seq<Message>>)
    requires p.keepRecent >= 1
    modifies cache
    ensures var c := old(ValueOf(cache)); var plan := PlanFor(history, p, c);
            Fits(plan, history, c) && asked == Request(plan, history, c)
    ensures !OverTrigger(history, p) || |RoundsFrom(history, 0)| <= p.keepRecent ==>
              reply == Sent(history) && asked.None? && ValueOf(cache) == old(ValueOf(cache))
    ensures reply == CompressStep(history, p, summarize, old(ValueOf(cache))).reply
    ensures cache != null ==>
              cache.Value() == CompressStep(history, p, summarize, old(ValueOf(cache))).cache
  {
    PlanFits(history, p, ValueOf(cache));
    TriggerIs(history, p);
    var plan := Decide(history, p, cache);
    if plan.Verbatim? {
      return Sent(history), None;
    }
    if plan.Hit? {
      var view := EnsurePairing([SummaryMessage(cache.summary)] + history[cache.covered..]);
      return Sent(view), None;
    }
    var split, summary := plan.split, "";
    if plan.Reuse? {
      asked, summary := None, cache.summary;
    } else {
      var toSummarize := history[..split];
      if plan.Extend? {
        toSummarize := [SummaryMessage(cache.summary)] + history[cache.covered..split];
      }
      asked := Some(toSummarize);
      match summarize(toSummarize) {
        case None => return SummarizeFailed, asked;
        case Some(s) => summary := s;
      }
    }
    reply := Install(history, p, split, summary, cache);
  }

  /** The commit part: record the summary, build the view, and shrink it. */
  method Install(history: seq<Message>, p: Policy, split: nat, summary: string, cache: CompressionCache?)
    returns (reply: Reply)
    requires split <= |history|
    modifies cache
    ensures reply == Resummarized(history, p, split, summary).reply
    ensures cache != null ==> cache.Value() == Resummarized(history, p, split, summary).cache
  {
    if cache != null {
      var bytes := MeasureBytes(history[..split]);
      cache.covered, cache.coveredBytes, cache.summary := split, bytes, summary;
    }
    var out := EnsurePairing([SummaryMessage(summary)] + history[split..]);
    out := ShrinkToBudget(out, history, split, p, cache);
    reply := Sent(out);
  }
}
