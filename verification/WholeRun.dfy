/** The loop with its model calls in place: compression, the overflow fallback, the
    provider's streams and their reader (internal/agent/loop.go:388-942,
    internal/agent/middleware.go:265-448). */
module WholeRun {
  import opened Provider
  import opened Pairing
  import opened Compress
  import opened Middleware
  import opened StreamAssembly
  import opened Attempts
  import opened ToolGate
  import Loop = AgentLoop

  datatype Setup = Setup(loop: Loop.Config, env: Env, compress: CompressConfig, retries: int, decode: Decoder)

  /** What the environment decides in one iteration: hooks, cancellation and interrupts as in
      a turn, the estimated envelope, the summarizer, the provider and the client. */
  datatype Around = Around(turn: Loop.Turn, overhead: nat, summarize: Compressor, model: Model, clients: nat -> Client)

  /** A model call as it happened: the breaker, the tries, and what the last one read. */
  datatype Made = Made(tripped: bool, tries: seq<Try>, reading: Reading, idxs: seq<int>)

  const NOTHING_MADE := Made(false, [], NOTHING_READ, [])

  function CacheOf(books: Books): Cache {
    if books.cache.Some? then books.cache.value else NO_CACHE
  }

  /** What compression hands on. */
  function FirstSent(setup: Setup, around: Around, view: seq<Message>, books: Books, tripped: bool): Outgoing {
    if setup.compress.window <= 0 || tripped then Outgoing(view, books)
    else
      var s := CompressStep(view, PolicyOf(setup.compress, around.overhead), around.summarize, CacheOf(books));
      Outgoing(if s.reply.Sent? then s.reply.view else view, books.(cache := Some(s.cache)))
  }

  /** What the loop is given of the last try. */
  function ResultOf(a: Attempt, r: Reading): Option<Loop.ModelResult> {
    if a.Success? then Some(Loop.ModelResult(r.content, r.calls, r.end.stop, r.end.usage)) else None
  }

  /** The turn is the outcome of a model call on this view: compressed first, then tried with
      ever smaller views, the last try telling the result and the books. */
  ghost predicate CallMade(setup: Setup, around: Around, view: seq<Message>, books: Books, t: Loop.Turn, m: Made) {
    && 0 < |m.tries| <= MaxRetries(setup.retries) + 1
    && Tries(m.tries, around.model, around.clients, setup.decode) && Trail(Attempts.Sent(m.tries))
    && m.tries[0].sent == FirstSent(setup, around, view, books, m.tripped)
    && var last := m.tries[|m.tries| - 1];
       && t == around.turn.(attempt := ResultOf(last.reported, m.reading), booksAfter := last.sent.books)
       && m.reading.emitted == last.emitted && m.reading.calls == CallsOf(m.reading.content)
       && (last.reported.Success? ==>
             ReadWhole(around.model(|m.tries| - 1, last.sent.view), setup.decode, m.reading, m.idxs))
  }

  /** The stream of the last try. */
  function SourceOf(around: Around, m: Made): Source
    requires m.tries != []
  {
    around.model(|m.tries| - 1, m.tries[|m.tries| - 1].sent.view)
  }

  predicate CallsModel(t: Loop.Turn) {
    !t.cancelledAtStart && !t.beforeAborts
  }

  /** The turn of an iteration that starts in this state. */
  ghost predicate TurnMade(setup: Setup, base: seq<Message>, around: Around, s: Loop.State, t: Loop.Turn, m: Made) {
    if CallsModel(around.turn) then CallMade(setup, around, Loop.ViewOf(base, s, around.turn), s.books, t, m)
    else t == around.turn.(attempt := None, booksAfter := s.books)
  }

  /** How turn n comes about from the state it finds. */
  ghost function Rule(setup: Setup, base: seq<Message>, arounds: nat -> Around):
    (nat, Loop.State, Loop.Turn, Made) -> bool
  {
    (n: nat, s: Loop.State, t: Loop.Turn, m: Made) => TurnMade(setup, base, arounds(n), s, t, m)
  }

  ghost predicate Each(rule: (nat, Loop.State, Loop.Turn, Made) -> bool, turns: seq<Loop.Turn>, made: seq<Made>,
                       earlier: seq<Loop.State>) {
    |turns| == |made| == |earlier| && forall n :: 0 <= n < |turns| ==> rule(n, earlier[n], turns[n], made[n])
  }

  /** Every turn of the run was made by a model call on what the loop had built so far. */
  ghost predicate Composed(setup: Setup, base: seq<Message>, arounds: nat -> Around, turns: seq<Loop.Turn>,
                           made: seq<Made>, earlier: seq<Loop.State>) {
    Each(Rule(setup, base, arounds), turns, made, earlier)
  }

  const NO_TURN := Loop.Turn(false, false, [], None, Books(None, 0), false, false, false, None)

  /** The turns taken so far, as the loop numbers them. */
  function Listed(turns: seq<Loop.Turn>): nat -> Loop.Turn {
    (n: nat) => if n < |turns| then turns[n] else NO_TURN
  }

  // ---- One model call ---------------------------------------------------------------------------

  /** A call on the run's state, as the loop hands it to the middleware. */
  method Prepare(view: seq<Message>, books: Books) returns (call: ModelCall)
    ensures fresh(call) && fresh(call.state) && call.view == view && call.state.Value() == books
    ensures call.state.compressCache != null ==> fresh(call.state.compressCache)
  {
    var state := new RunState();
    state.viewDropped := books.viewDropped;
    if books.cache.Some? {
      var cache := new CompressionCache();
      cache.covered, cache.coveredBytes, cache.summary :=
        books.cache.value.covered, books.cache.value.coveredBytes, books.cache.value.summary;
      state.compressCache := cache;
    }
    call := new ModelCall(view, state);
  }

  method MakeCall(setup: Setup, around: Around, view: seq<Message>, books: Books, breaker: CircuitBreaker)
    returns (t: Loop.Turn, ghost m: Made)
    requires breaker.Valid()
    modifies breaker
    ensures breaker.Valid() && m.tripped == (old(breaker.failures) >= MaxFailures(setup.compress))
    ensures m.tripped || setup.compress.window <= 0 ==> breaker.failures == old(breaker.failures)
    ensures !m.tripped && setup.compress.window > 0 ==>
              var s := CompressStep(view, PolicyOf(setup.compress, around.overhead), around.summarize, CacheOf(books));
              breaker.failures == if s.reply.Sent? then 0 else old(breaker.failures) + 1
    ensures CallMade(setup, around, view, books, t, m)
  {
    var call := Prepare(view, books);
    ghost var tripped := breaker.failures >= MaxFailures(setup.compress);
    if setup.compress.window > 0 {
      var asked := CompressView(setup.compress, around.overhead, around.summarize, breaker, call);
    }
    ghost var first := Outgoing(call.view, call.state.Value());
    assert first == FirstSent(setup, around, view, books, tripped);
    var res, r;
    ghost var tries, idxs;
    res, r, tries, idxs := WrapModelCall(setup.retries, call, around.model, around.clients, setup.decode);
    t := around.turn.(attempt := ResultOf(res, r), booksAfter := call.state.Value());
    m := Made(tripped, tries, r, idxs);
  }

  // ---- The run --------------------------------------------------------------------------------------

  /** The course depends on the turns already taken alone. */
  lemma CourseListed(setup: Setup, base: seq<Message>, turns: seq<Loop.Turn>, t: Loop.Turn, earlier: seq<Loop.State>,
                     s: Loop.State)
    requires |earlier| <= |turns| && Loop.OnCourse(setup.loop, setup.env, base, Listed(turns), earlier, s)
    ensures Loop.OnCourse(setup.loop, setup.env, base, Listed(turns + [t]), earlier, s)
    decreases |earlier|
  {
    if earlier != [] {
      var n := |earlier| - 1;
      CourseListed(setup, base, turns, t, earlier[..n], earlier[n]);
    }
  }

  lemma EachNext(rule: (nat, Loop.State, Loop.Turn, Made) -> bool, turns: seq<Loop.Turn>, made: seq<Made>,
                 earlier: seq<Loop.State>, t: Loop.Turn, m: Made, s: Loop.State)
    requires Each(rule, turns, made, earlier) && rule(|turns|, s, t, m)
    ensures Each(rule, turns + [t], made + [m], earlier + [s])
  {
  }

  /** A tripped breaker stays tripped: nothing is asked that could succeed. */
  ghost predicate Steady(made: seq<Made>) {
    forall a, b :: 0 <= a < b < |made| && made[a].tripped ==> made[b].tripped
  }

  /** So far, with the breaker now as it is. */
  ghost predicate Watched(made: seq<Made>, tripped: bool) {
    Steady(made) && forall a :: 0 <= a < |made| && made[a].tripped ==> tripped
  }

  lemma WatchedNext(made: seq<Made>, m: Made, before: bool, after: bool)
    requires Watched(made, before) && m.tripped == before && (before ==> after)
    ensures Watched(made + [m], after)
  {
  }

  method MakeTurn(setup: Setup, base: seq<Message>, around: Around, s: Loop.State, breaker: CircuitBreaker)
    returns (t: Loop.Turn, ghost m: Made)
    requires breaker.Valid()
    modifies breaker
    ensures breaker.Valid() && TurnMade(setup, base, around, s, t, m) && Loop.Assembled(t)
    ensures m.tripped == (old(breaker.failures) >= MaxFailures(setup.compress))
    ensures m.tripped ==> breaker.failures == old(breaker.failures)
  {
    if CallsModel(around.turn) {
      t, m := MakeCall(setup, around, Loop.ViewOf(base, s, around.turn), s.books, breaker);
    } else {
      t := around.turn.(attempt := None, booksAfter := s.books);
      m := NOTHING_MADE.(tripped := breaker.failures >= MaxFailures(setup.compress));
    }
  }

  /** One iteration: make the turn by a real model call, and take it. */
  method OneTurn(setup: Setup, base: seq<Message>, arounds: nat -> Around, s0: Loop.State, iter: nat,
                 breaker: CircuitBreaker, ghost turns0: seq<Loop.Turn>, ghost made0: seq<Made>,
                 ghost earlier0: seq<Loop.State>)
    returns (s: Loop.State, next: Loop.Next, ghost turns: seq<Loop.Turn>, ghost made: seq<Made>,
             ghost earlier: seq<Loop.State>)
    requires breaker.Valid() && |earlier0| == iter < setup.loop.maxIterations
    requires Composed(setup, base, arounds, turns0, made0, earlier0)
    requires Watched(made0, breaker.failures >= MaxFailures(setup.compress))
    requires Loop.OnCourse(setup.loop, setup.env, base, Listed(turns0), earlier0, s0)
    modifies breaker
    ensures breaker.Valid() && |earlier| == iter + 1 && Composed(setup, base, arounds, turns, made, earlier)
    ensures Watched(made, breaker.failures >= MaxFailures(setup.compress))
    ensures next.Continue? ==> Loop.OnCourse(setup.loop, setup.env, base, Listed(turns), earlier, s)
    ensures next.Exit? ==>
              next.outcome != Loop.OUT_OF_TURNS &&
              Loop.Course(setup.loop, setup.env, base, Listed(turns), earlier, s, next.outcome)
  {
    ghost var tripped := breaker.failures >= MaxFailures(setup.compress);
    var t, m := MakeTurn(setup, base, arounds(iter), s0, breaker);
    WatchedNext(made0, m, tripped, breaker.failures >= MaxFailures(setup.compress));
    CourseListed(setup, base, turns0, t, earlier0, s0);
    EachNext(Rule(setup, base, arounds), turns0, made0, earlier0, t, m, s0);
    Loop.OnCourseInv(setup.loop, setup.env, base, Listed(turns0), earlier0, s0);
    turns, made := turns0 + [t], made0 + [m];
    s, next := Loop.Iterate(setup.loop, setup.env, base, s0, t, iter);
    earlier := Loop.TurnTaken(setup.loop, setup.env, base, Listed(turns), earlier0, s0, s, next);
  }

  /** Main result: the loop over real model calls takes the course its reference prescribes
      for the turns those calls amount to, and ends as every run of the loop does. */
  method Run(setup: Setup, history: seq<Message>, arounds: nat -> Around, breaker: CircuitBreaker)
    returns (s: Loop.State, outcome: Loop.Outcome, ghost turns: seq<Loop.Turn>, ghost made: seq<Made>,
             ghost earlier: seq<Loop.State>, ghost last: Loop.State)
    requires breaker.Valid()
    modifies breaker
    ensures breaker.Valid() && Loop.Ended(setup.loop, setup.env, s, outcome)
    ensures Composed(setup, Repair(history), arounds, turns, made, earlier) && Steady(made)
    ensures Loop.Course(setup.loop, setup.env, Repair(history), Listed(turns), earlier, last, outcome)
    ensures s.produced == last.produced && s.executed == last.executed && Loop.Keeps(s, last)
  {
    var base := EnsurePairing(history);
    s, turns, made, earlier := Loop.FRESH, [], [], [];
    for iter := 0 to setup.loop.maxIterations
      invariant breaker.Valid() && |earlier| == iter
      invariant Composed(setup, base, arounds, turns, made, earlier)
      invariant Watched(made, breaker.failures >= MaxFailures(setup.compress))
      invariant Loop.OnCourse(setup.loop, setup.env, base, Listed(turns), earlier, s)
    {
      var next;
      s, next, turns, made, earlier := OneTurn(setup, base, arounds, s, iter, breaker, turns, made, earlier);
      if next.Exit? {
        outcome, last := next.outcome, s;
        Loop.CourseEnds(setup.loop, setup.env, base, Listed(turns), earlier, s, outcome);
        return;
      }
    }
    last := s;
    Loop.OnCourseInv(setup.loop, setup.env, base, Listed(turns), earlier, s);
    s, outcome := Loop.RunOut(setup.loop, setup.env, s);
  }
}
