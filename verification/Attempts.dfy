/** One model call over several provider streams: what the client sees of it
    (internal/agent/loop.go:893-942, internal/agent/middleware.go:392-448). */
module Attempts {
  import opened Provider
  import opened Rounds
  import opened Middleware
  import opened StreamAssembly

  /** What the provider does with a request: refuse it, or stream events; `overflow` says
      whether its error means that the context is too large. */
  datatype Source = Refused(overflow: bool) | Streams(events: seq<Event>, overflow: bool)

  /** Some frame of this stream reached the client. */
  ghost predicate Delivered(emitted: seq<Frame>, client: Client) {
    exists k: nat :: k < |emitted| && client.accepts(k)
  }

  /** What an attempt that sent these frames is reported as. A refusal sends nothing. A stream
      is a success when nothing stopped the reader; otherwise it sent the frames up to where it
      stopped, is an overflow when the provider's own error stopped it and is one, and is marked
      mid-stream when some frame reached the client. */
  ghost predicate Reported(source: Source, client: Client, decode: Decoder, emitted: seq<Frame>, a: Attempt) {
    match source
    case Refused(overflow) => emitted == [] && a == if overflow then Overflow(false) else OtherError(false)
    case Streams(events, overflow) =>
      exists why :: Halts(events, client, emitted, why, decode) &&
        match a
        case Success => why == None
        case Overflow(midStream) =>
          why == Some(StreamFailed) && overflow && (midStream <==> Delivered(emitted, client))
        case OtherError(midStream) =>
          why != None && (why != Some(StreamFailed) || !overflow) && (midStream <==> Delivered(emitted, client))
  }

  /** The error of an attempt, as the retry sees it. */
  function Classified(failure: Failure, overflow: bool, delivered: bool): Attempt {
    if failure.StreamFailed? && overflow then Overflow(delivered) else OtherError(delivered)
  }

  /** What stopped the reader is settled by the stream and the client. */
  lemma HaltSettled(events: seq<Event>, client: Client, decode: Decoder, emitted: seq<Frame>, why: Option<Failure>)
    requires Halts(events, client, emitted, why, decode)
    ensures why.None? <==> GoesWell(events, |events| + 1, client, decode)
    ensures why == Some(StreamFailed) <==>
            exists n: nat :: HaltsFirst(events, n, client, decode, StreamFailed)
  {
    if why.Some? {
      var n: nat :| HaltsFirst(events, n, client, decode, why.value);
      if m: nat :| HaltsFirst(events, m, client, decode, StreamFailed) {
        assert m == n;
      }
    }
  }

  /** Main result: an attempt on a stream succeeds exactly when nothing stops the reader, and
      is an overflow exactly when the provider's error stops it first and is one. */
  lemma ReportedExactly(events: seq<Event>, overflow: bool, client: Client, decode: Decoder, emitted: seq<Frame>,
                        a: Attempt)
    requires Reported(Streams(events, overflow), client, decode, emitted, a)
    ensures a.Success? <==> GoesWell(events, |events| + 1, client, decode)
    ensures a.Overflow? <==>
            overflow && exists n: nat :: HaltsFirst(events, n, client, decode, StreamFailed)
  {
    var why :| Halts(events, client, emitted, why, decode) && (a.Success? <==> why == None) &&
               (a.Overflow? <==> why == Some(StreamFailed) && overflow);
    HaltSettled(events, client, decode, emitted, why);
  }

  const NOTHING_READ := Reading(map[], [], [], TurnEnd(StopUnknown, None), [])

  /** A successful attempt hands on exactly what the stream amounts to. */
  ghost predicate ReadWhole(source: Source, decode: Decoder, r: Reading, idxs: seq<int>) {
    source.Streams? && OpenInOrder(source.events, idxs) && r.end == EndAfter(source.events, |source.events|) &&
    (forall n :: 0 <= n < |source.events| ==> Legal(source.events, n)) &&
    r.emitted ==
      Frames(source.events, |source.events|, decode) + UseFramesOf(OpenBlocks(source.events, idxs, decode)) &&
    r.content == ClosedBlocks(source.events, |source.events|, decode) + OpenBlocks(source.events, idxs, decode)
  }

  method RealAttempt(source: Source, client: Client, decode: Decoder)
    returns (a: Attempt, r: Reading, ghost idxs: seq<int>)
    ensures Reported(source, client, decode, r.emitted, a)
    ensures r.calls == CallsOf(r.content) && (a.Success? ==> ReadWhole(source, decode, r, idxs))
  {
    idxs := [];
    if source.Refused? {
      return if source.overflow then Overflow(false) else OtherError(false), NOTHING_READ, idxs;
    }
    var failure;
    r, failure, idxs := Consume(source.events, client, decode);
    var delivered := Tracked(r.emitted, client);
    a := if failure.Some? then Classified(failure.value, source.overflow, delivered) else Success;
  }

  /** The emission tracker: whether any frame went through. */
  method Tracked(emitted: seq<Frame>, client: Client) returns (delivered: bool)
    ensures delivered <==> Delivered(emitted, client)
  {
    delivered := false;
    for k := 0 to |emitted|
      invariant delivered <==> exists j: nat :: j < k && client.accepts(j)
    {
      delivered := delivered || client.accepts(k);
    }
  }

  // ---- Retrying ------------------------------------------------------------------------------

  /** One try: the view sent, how it was reported, and the frames it sent. */
  datatype Try = Try(sent: Outgoing, reported: Attempt, emitted: seq<Frame>)

  /** The provider answers a request by its number and its messages. */
  type Model = (nat, seq<Message>) -> Source

  /** The tries of one call: each answers the view that was sent; each but the last overflowed
      before anything was forwarded, and the next view is what a retry makes of it. */
  ghost predicate Tries(tries: seq<Try>, model: Model, clients: nat -> Client, decode: Decoder) {
    && (forall k :: 0 <= k < |tries| ==>
          Reported(model(k, tries[k].sent.view), clients(k), decode, tries[k].emitted, tries[k].reported))
    && (forall k :: 0 <= k < |tries| - 1 ==> tries[k].reported == Overflow(false))
  }

  function Sent(tries: seq<Try>): (trail: seq<Outgoing>)
    ensures |trail| == |tries|
  {
    seq(|tries|, k requires 0 <= k < |tries| => tries[k].sent)
  }

  /** After try n: what the last one gave, and what it sent. */
  ghost predicate Tried(tries: seq<Try>, n: nat, model: Model, clients: nat -> Client, decode: Decoder, res: Attempt,
                        r: Reading, idxs: seq<int>) {
    && |tries| == n + 1 && Tries(tries, model, clients, decode) && Trail(Sent(tries))
    && tries[n].reported == res && tries[n].emitted == r.emitted && r.calls == CallsOf(r.content)
    && (res.Success? ==> ReadWhole(model(n, tries[n].sent.view), decode, r, idxs))
  }

  /** The overflow fallback around real attempts. Retries follow only overflows that surfaced
      before any frame was forwarded; the loop stops when an attempt ends otherwise, when the
      retries are used up, or when a single round is left. */
  method WrapModelCall(configured: int, call: ModelCall, model: Model, clients: nat -> Client, decode: Decoder)
    returns (res: Attempt, r: Reading, ghost tries: seq<Try>, ghost idxs: seq<int>)
    modifies call, call.state, call.state.compressCache
    ensures 0 < |tries| <= MaxRetries(configured) + 1 && Tries(tries, model, clients, decode) && Trail(Sent(tries))
    ensures tries[0].sent == old(Outgoing(call.view, call.state.Value()))
    ensures tries[|tries| - 1] == Try(Outgoing(call.view, call.state.Value()), res, r.emitted)
    ensures res == Overflow(false) ==>
              |tries| == MaxRetries(configured) + 1 || |RoundsFrom(call.view, 0)| <= 1
    ensures r.calls == CallsOf(r.content)
    ensures res.Success? ==> ReadWhole(model(|tries| - 1, call.view), decode, r, idxs)
    ensures call.state.compressCache == old(call.state.compressCache) && call.state.view == old(call.state.view)
  {
    ghost var trail := [Outgoing(call.view, call.state.Value())];
    var n := 0;
    res, r, idxs := RealAttempt(model(0, call.view), clients(0), decode);
    tries := [Try(trail[0], res, r.emitted)];
    assert Sent(tries) == trail;
    while res.Overflow? && n < MaxRetries(configured)
      invariant n <= MaxRetries(configured) && Tried(tries, n, model, clients, decode, res, r, idxs)
      invariant tries[0].sent == old(Outgoing(call.view, call.state.Value()))
      invariant tries[n].sent == Outgoing(call.view, call.state.Value())
      invariant call.state.compressCache == old(call.state.compressCache) && call.state.view == old(call.state.view)
      decreases MaxRetries(configured) - n
    {
      if res.midStream {
        break;
      }
      var dropped;
      ghost var more;
      dropped, more := ShrinkView(call, Sent(tries));
      if !dropped {
        break;
      }
      n := n + 1;
      res, r, idxs, tries := AnotherAttempt(call, model, clients, decode, n, more, tries);
    }
  }

  /** One more try, on the view the call stands at now. */
  method AnotherAttempt(call: ModelCall, model: Model, clients: nat -> Client, decode: Decoder, n: nat,
                        ghost trail: seq<Outgoing>, ghost tries0: seq<Try>)
    returns (res: Attempt, r: Reading, ghost idxs: seq<int>, ghost tries: seq<Try>)
    requires |tries0| == n > 0 && Tries(tries0, model, clients, decode) && tries0[n - 1].reported == Overflow(false)
    requires Trail(trail) && trail == Sent(tries0) + [Outgoing(call.view, call.state.Value())]
    ensures Tried(tries, n, model, clients, decode, res, r, idxs) && tries[0] == tries0[0]
    ensures tries[n].sent == Outgoing(call.view, call.state.Value())
  {
    res, r, idxs := RealAttempt(model(n, call.view), clients(n), decode);
    TriesNext(tries0, Try(trail[n], res, r.emitted), model, clients, decode);
    tries := tries0 + [Try(trail[n], res, r.emitted)];
  }

  lemma TriesNext(tries: seq<Try>, next: Try, model: Model, clients: nat -> Client, decode: Decoder)
    requires Tries(tries, model, clients, decode) && tries != [] && tries[|tries| - 1].reported == Overflow(false)
    requires Reported(model(|tries|, next.sent.view), clients(|tries|), decode, next.emitted, next.reported)
    ensures Tries(tries + [next], model, clients, decode) && Sent(tries + [next]) == Sent(tries) + [next.sent]
  {
  }

  /** No try but the last reached the client. */
  lemma EarlierSilent(tries: seq<Try>, model: Model, clients: nat -> Client, decode: Decoder, k: nat)
    requires Tries(tries, model, clients, decode) && k < |tries| - 1
    ensures !Delivered(tries[k].emitted, clients(k))
  {
    assert Reported(model(k, tries[k].sent.view), clients(k), decode, tries[k].emitted, tries[k].reported);
  }

  /** Main result: within one model call no stream but the last reached the client. */
  lemma OneStreamDelivers(tries: seq<Try>, model: Model, clients: nat -> Client, decode: Decoder, k: nat)
    requires Tries(tries, model, clients, decode) && k < |tries| && Delivered(tries[k].emitted, clients(k))
    ensures k == |tries| - 1
  {
    assert Reported(model(k, tries[k].sent.view), clients(k), decode, tries[k].emitted, tries[k].reported);
  }
}
