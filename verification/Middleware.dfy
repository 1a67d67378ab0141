/** The model-call middleware that rewrites the view: compression behind a circuit breaker,
    and the reactive overflow fallback (internal/agent/middleware.go:265-448). */
module Middleware {
  import opened Provider
  import opened Pairing
  import opened Rounds
  import opened Budget
  import opened Compress

  // ---- Run bookkeeping ------------------------------------------------------------------

  /** The parts of a run's state that decide what the next view is. */
  datatype Books = Books(cache: Option<Cache>, viewDropped: int)

  class RunState {
    var view: seq<Message>
    var viewDropped: int
    var compressCache: CompressionCache?

    function Value(): Books
      reads this, compressCache
    {
      Books(if compressCache == null then None else Some(compressCache.Value()), viewDropped)
    }

    constructor ()
      ensures compressCache == null && viewDropped == 0 && view == []
    {
      view, viewDropped, compressCache := [], 0, null;
    }
  }

  /** The loop's rebuilt view: durable history without the prefix already dropped. */
  function Rebuilt(all: seq<Message>, viewDropped: int): seq<Message> {
    if 0 < viewDropped < |all| then all[viewDropped..] else all
  }

  class ModelCall {
    var view: seq<Message>
    const state: RunState

    constructor (view: seq<Message>, state: RunState)
      ensures this.view == view && this.state == state
    {
      this.view, this.state := view, state;
    }
  }

  // ---- Circuit breaker --------------------------------------------------------------------

  /** The last n outcomes were failures. */
  predicate LastFailed(outcomes: seq<bool>, n: int) {
    n <= |outcomes| && forall k :: 0 <= k < |outcomes| && k >= |outcomes| - n ==> outcomes[k]
  }

  /** `outcomes` are all recorded outcomes, true for a failure. */
  class CircuitBreaker {
    var failures: nat
    ghost var outcomes: seq<bool>

    /** The count is the length of the run of failures the outcomes end with. */
    ghost predicate Valid()
      reads this
    {
      LastFailed(outcomes, failures) && (failures < |outcomes| ==> !outcomes[|outcomes| - failures - 1])
    }

    constructor ()
      ensures Valid() && failures == 0 && outcomes == []
    {
      failures, outcomes := 0, [];
    }

    /** Tripped exactly when the last `max` outcomes were failures, whatever came before. */
    method Tripped(max: int) returns (tripped: bool)
      requires Valid()
      ensures tripped <==> LastFailed(outcomes, max)
    {
      tripped := failures >= max;
      CountsFailures(max);
    }

    /** The last `max` outcomes were failures exactly when the count says so. */
    lemma CountsFailures(max: int)
      requires Valid()
      ensures LastFailed(outcomes, max) <==> failures >= max
    {
      assert failures < |outcomes| && failures < max ==> |outcomes| - failures - 1 >= |outcomes| - max;
    }

    method Record(failed: bool) returns (n: nat)
      requires Valid()
      modifies this
      ensures Valid() && outcomes == old(outcomes) + [failed]
      ensures n == failures == if failed then old(failures) + 1 else 0
    {
      outcomes := outcomes + [failed];
      if failed {
        failures := failures + 1;
      } else {
        failures := 0;
      }
      n := failures;
    }
  }

  /** Zero values mean "default", as in the source. */
  datatype CompressConfig = CompressConfig(window: int, maxTokens: int, threshold: real, keepRecent: int,
                                           maxFailures: int)

  function MaxFailures(cfg: CompressConfig): int {
    if cfg.maxFailures <= 0 then 3 else cfg.maxFailures
  }

  /** The policy of one call, given the estimated size of the request's fixed envelope. It
      always keeps at least one round. */
  function PolicyOf(cfg: CompressConfig, overhead: nat): (p: Policy)
    ensures p.keepRecent >= 1 && p.threshold > 0.0
    ensures cfg.window > 0 ==> 0 < p.maxTokens
  {
    var reserved := cfg.window - cfg.maxTokens;
    var budget := if reserved <= 0 then cfg.window else reserved;
    Policy(if overhead < budget then budget - overhead else budget,
           if cfg.threshold <= 0.0 then 0.8 else cfg.threshold,
           if cfg.keepRecent <= 0 then 2 else cfg.keepRecent)
  }

  /** The compression middleware up to the point where it calls on. A failed summary leaves
      the view alone and counts against the breaker; a tripped breaker asks nothing. */
  method CompressView(cfg: CompressConfig, overhead: nat, summarize: Compressor, breaker: CircuitBreaker,
                      call: ModelCall)
    returns (asked: Option<seq<Message>>)
    requires cfg.window > 0 && breaker.Valid()
    modifies call, call.state, call.state.compressCache, breaker
    ensures breaker.Valid() &&
            (old(breaker.failures) >= MaxFailures(cfg) <==> LastFailed(old(breaker.outcomes), MaxFailures(cfg)))
    ensures old(breaker.failures) >= MaxFailures(cfg) ==>
              asked.None? && call.view == old(call.view) && breaker.failures == old(breaker.failures) &&
              call.state.Value() == old(call.state.Value())
    ensures call.state.viewDropped == old(call.state.viewDropped) && call.state.view == old(call.state.view)
    ensures call.state.compressCache == old(call.state.compressCache) || fresh(call.state.compressCache)
    ensures old(breaker.failures) < MaxFailures(cfg) ==>
              var s := CompressStep(old(call.view), PolicyOf(cfg, overhead), summarize,
                                    old(ValueOf(call.state.compressCache)));
              call.state.Value().cache == Some(s.cache) &&
              call.view == (if s.reply.Sent? then s.reply.view else old(call.view)) &&
              breaker.failures == (if s.reply.Sent? then 0 else old(breaker.failures) + 1)
  {
    breaker.CountsFailures(MaxFailures(cfg));
    var tripped := breaker.Tripped(MaxFailures(cfg));
    if tripped {
      return None;
    }
    var state := call.state;
    if state.compressCache == null {
      state.compressCache := new CompressionCache();
    }
    var reply;
    reply, asked := CompressWithCache(call.view, PolicyOf(cfg, overhead), summarize, state.compressCache);
    var n := breaker.Record(reply.SummarizeFailed?);
    if reply.Sent? {
      call.view := reply.view;
    }
  }

  // ---- Overflow fallback --------------------------------------------------------------------

  /** How a provider attempt ended; `midStream` when frames of it had been forwarded. */
  datatype Attempt = Success | Overflow(midStream: bool) | OtherError(midStream: bool)

  datatype Retry = Retried(view: seq<Message>, books: Books) | GaveUp

  /** Drop the oldest round, the summary only when nothing else is left to drop. */
  function DropForOverflow(view: seq<Message>): Drop {
    var drop := DropOldestRoundPreservingSummary(view);
    if drop.Dropped? then drop else DropOldestRound(view)
  }

  /** The cache after the view was shrunk. */
  function Rebooked(c: Cache, view: seq<Message>, shrunk: seq<Message>): Cache {
    if c.covered == 0 || view == [] || !IsSummary(view[0]) then c
    else if shrunk == [] || !IsSummary(shrunk[0]) then NO_CACHE
    else if |view| > |shrunk| then Advanced(c, view[1..1 + |view| - |shrunk|])
    else c
  }

  function RetryStep(view: seq<Message>, books: Books): Retry {
    match DropForOverflow(view)
    case Refused => GaveUp
    case Dropped(shrunk) =>
      match books.cache
      case Some(c) => Retried(shrunk, books.(cache := Some(Rebooked(c, view, shrunk))))
      case None => Retried(shrunk, books.(viewDropped := books.viewDropped + |view| - |shrunk|))
  }

  /** A view sent to the provider, with the books as they stood then. */
  datatype Outgoing = Outgoing(view: seq<Message>, books: Books)

  ghost predicate Retries(trail: seq<Outgoing>, k: nat)
    requires k + 1 < |trail|
  {
    RetryStep(trail[k].view, trail[k].books) == Retried(trail[k + 1].view, trail[k + 1].books)
  }

  /** The views of one call: each is what a retry makes of the one before. */
  ghost predicate Trail(trail: seq<Outgoing>) {
    trail != [] && forall k :: 0 <= k < |trail| - 1 ==> Retries(trail, k)
  }

  function MaxRetries(configured: int): nat {
    if configured <= 0 then 3 else configured
  }

  /** One shrink of the call's view; false when a single round is left. */
  method ShrinkView(call: ModelCall, ghost trail0: seq<Outgoing>) returns (dropped: bool, ghost trail: seq<Outgoing>)
    requires Trail(trail0) && trail0[|trail0| - 1] == Outgoing(call.view, call.state.Value())
    modifies call, call.state, call.state.compressCache
    ensures dropped ==> Trail(trail) && trail == trail0 + [Outgoing(call.view, call.state.Value())]
    ensures !dropped ==> trail == trail0 && call.view == old(call.view) && call.state.Value() == old(call.state.Value())
    ensures !dropped ==> |RoundsFrom(call.view, 0)| <= 1
    ensures call.state.compressCache == old(call.state.compressCache) && call.state.view == old(call.state.view)
  {
    trail := trail0;
    var drop := DropOldestRoundPreservingSummary(call.view);
    if drop.Refused? {
      drop := DropOldestRound(call.view);
    }
    dropped := drop.Dropped?;
    if dropped {
      Rebook(call, drop.out);
      trail := trail0 + [Outgoing(call.view, call.state.Value())];
      ExtendTrail(trail0, trail);
    }
  }

  lemma ExtendTrail(trail0: seq<Outgoing>, trail: seq<Outgoing>)
    requires Trail(trail0) && |trail| == |trail0| + 1 && trail[..|trail0|] == trail0
    requires Retries(trail, |trail0| - 1)
    ensures Trail(trail)
  {
    forall k | 0 <= k < |trail| - 1 ensures Retries(trail, k) {
      if k < |trail0| - 1 {
        assert trail[..|trail0|][k] == trail0[k] && trail[..|trail0|][k + 1] == trail0[k + 1];
        assert Retries(trail0, k);
      }
    }
  }

  /** Install the shrunk view and keep the books in step with it. */
  method Rebook(call: ModelCall, shrunk: seq<Message>)
    requires DropForOverflow(call.view) == Dropped(shrunk)
    modifies call, call.state, call.state.compressCache
    ensures RetryStep(old(call.view), old(call.state.Value())) == Retried(call.view, call.state.Value())
    ensures call.state.compressCache == old(call.state.compressCache) && call.state.view == old(call.state.view)
  {
    var state, view := call.state, call.view;
    var cache := state.compressCache;
    if cache != null && cache.covered > 0 && view != [] && IsSummary(view[0]) {
      if shrunk != [] && IsSummary(shrunk[0]) {
        if |view| > |shrunk| {
          cache.Advance(view[1..1 + |view| - |shrunk|]);
        }
      } else {
        cache.Invalidate();
      }
    }
    if cache == null {
      state.viewDropped := state.viewDropped + |view| - |shrunk|;
    }
    call.view := shrunk;
  }
}
