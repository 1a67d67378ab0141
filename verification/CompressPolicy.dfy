/** What the configured limits come to: the room a request has beside its envelope and the
    reply, and that compressed requests stay within it
    (internal/agent/middleware.go:317-376). */
module CompressPolicy {
  import opened Provider
  import opened Rounds
  import opened RoundsProperties
  import opened Budget
  import opened Compress
  import opened CompressProperties
  import opened CompressDecisions
  import opened Middleware

  /** The view, the envelope and the reply share the window. What would leave the view no room
      is not counted against it. */
  lemma PolicyShares(cfg: CompressConfig, overhead: nat)
    requires cfg.window > 0
    ensures var room := PolicyOf(cfg, overhead).maxTokens;
            room + (if cfg.maxTokens < cfg.window then cfg.maxTokens else 0) +
                   (if overhead + (if cfg.maxTokens < cfg.window then cfg.maxTokens else 0) < cfg.window then overhead
                    else 0) == cfg.window
    ensures var p := PolicyOf(cfg, overhead);
            (cfg.threshold <= 0.0 ==> p.threshold == 0.8) && (cfg.threshold > 0.0 ==> p.threshold == cfg.threshold) &&
            (cfg.keepRecent <= 0 ==> p.keepRecent == 2) && (cfg.keepRecent > 0 ==> p.keepRecent == cfg.keepRecent)
    ensures (cfg.maxFailures <= 0 ==> MaxFailures(cfg) == 3) &&
            (cfg.maxFailures > 0 ==> MaxFailures(cfg) == cfg.maxFailures)
  {
  }

  lemma UnderTrigger(view: seq<Message>, p: Policy)
    requires 0.0 < p.threshold <= 1.0 && p.maxTokens > 0 && !OverTrigger(view, p)
    ensures Tokens(view) <= p.maxTokens
  {
    Below(Tokens(view), p);
  }

  lemma Below(tokens: nat, p: Policy)
    requires 0.0 < p.threshold <= 1.0 && p.maxTokens > 0
    ensures !Exceeds(tokens, p) ==> tokens <= p.maxTokens
  {
    TakesPart(p.maxTokens as real, p.threshold);
  }

  lemma TakesPart(a: real, part: real)
    requires a > 0.0 && 0.0 < part <= 1.0
    ensures a * part <= a
  {
  }

  /** Main result: a request that compression lets through fits the model's window together
      with its envelope and the reply, unless nothing but the summary is left, or there never
      were more rounds than are to be kept. */
  lemma RequestFits(cfg: CompressConfig, overhead: nat, history: seq<Message>, summarize: Compressor, c: Cache)
    requires cfg.window > 0 && overhead + cfg.maxTokens < cfg.window && cfg.threshold <= 1.0 && Paired(history)
    ensures var s := CompressStep(history, PolicyOf(cfg, overhead), summarize, c);
            s.reply.Sent? ==>
              || Tokens(s.reply.view) + overhead + cfg.maxTokens <= cfg.window
              || s.reply.view == [SummaryMessage(s.cache.summary)]
              || (s.reply.view == history &&
                  |RoundsFrom(history, 0)| <= if cfg.keepRecent <= 0 then 2 else cfg.keepRecent)
  {
    var p := PolicyOf(cfg, overhead);
    PolicyShares(cfg, overhead);
    if !Crowded(history, p) {
      LeftAlone(history, p, summarize, c);
      if !OverTrigger(history, p) {
        UnderTrigger(history, p);
      }
    } else {
      CrowdedFits(history, p, summarize, c);
    }
  }

  lemma CrowdedFits(history: seq<Message>, p: Policy, summarize: Compressor, c: Cache)
    requires p.keepRecent >= 1 && 0.0 < p.threshold <= 1.0 && p.maxTokens > 0
    requires Paired(history) && Crowded(history, p)
    ensures var s := CompressStep(history, p, summarize, c);
            s.reply.Sent? ==> Tokens(s.reply.view) <= p.maxTokens || s.reply.view == [SummaryMessage(s.cache.summary)]
  {
    TriggerIs(history, p);
    if PlanFor(history, p, c).Hit? {
      HitFits(history, p, summarize, c);
    } else {
      RestFits(history, p, summarize, c);
      var s := CompressStep(history, p, summarize, c);
      if s.reply.Sent? && s.reply.view != [SummaryMessage(s.cache.summary)] {
        TriggerIs(s.reply.view, p);
        UnderTrigger(s.reply.view, p);
      }
    }
  }
}
