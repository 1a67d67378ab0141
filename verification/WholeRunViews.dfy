/** The views of a run without a compression cache: what is dropped from them, and what the
    loop rebuilds next (internal/agent/loop.go:424-433, 488-505, 802-843,
    internal/agent/middleware.go:404-446). */
module WholeRunViews {
  import opened Provider
  import opened Pairing
  import opened PairingSpec
  import opened PairingProperties
  import opened Rounds
  import opened RoundsProperties
  import opened Compress
  import opened CompressProperties
  import opened Middleware
  import opened OverflowProperties
  import opened StreamAssembly
  import opened Attempts
  import opened ToolGate
  import Loop = AgentLoop
  import opened RunProperties
  import opened WholeRun
  import opened WholeRunProperties

  // ---- Cutting a prefix off ------------------------------------------------------------------------

  /** A well-formed list does not start with an answer. */
  lemma AnswersNothingFirst(msgs: seq<Message>)
    ensures Strict(msgs) && msgs != [] ==> ResultIds(msgs[0].content) == []
  {
    if Strict(msgs) && msgs != [] {
      assert StrictAt(msgs, 0);
      assert |multiset(ResultIds(msgs[0].content))| == |ResultIds(msgs[0].content)|;
    }
  }

  lemma AnswerBehind(all: seq<Message>, k: nat)
    requires Paired(all) && 0 < k <= |all| && UseIds(all[k - 1].content) != []
    ensures k < |all| && ResultIds(all[k].content) != []
  {
    var ids := UseIds(all[k - 1].content);
    assert StrictAt(all, k - 1) && StrictAt(all, k);
    assert ids[0] in multiset(ids);
  }

  /** What is left behind a cut is well-formed exactly when the cut separates no call from its
      answer. */
  lemma CutPaired(all: seq<Message>, k: nat)
    requires Paired(all) && k <= |all|
    ensures Paired(all[k..]) <==> CutSafe(all, k)
  {
    AnswersNothingFirst(all[k..]);
    if CutSafe(all, k) {
      SafeCut(all, k);
    } else {
      AnswerBehind(all, k);
    }
  }

  /** Nothing but a prefix was dropped, up to a cut. */
  predicate InView(all: seq<Message>, dropped: int) {
    (dropped == 0 || 0 < dropped < |all|) && CutSafe(all, dropped)
  }

  lemma ViewIsTail(all: seq<Message>, dropped: int)
    requires Paired(all) && InView(all, dropped)
    ensures Rebuilt(all, dropped) == all[dropped..] && Paired(Rebuilt(all, dropped))
  {
    CutPaired(all, dropped);
  }

  lemma InViewGrows(all: seq<Message>, added: seq<Message>, dropped: int)
    requires dropped == 0 || 0 <= dropped < |all|
    ensures InView(all + added, dropped) <==> InView(all, dropped)
  {
  }

  // ---- One model call --------------------------------------------------------------------------------

  /** The next retry keeps a look-alike at the head and drops an exchange with a tool behind
      it, so that the count it keeps ends between the call and its answer. */
  predicate Splits(view: seq<Message>) {
    |view| > 1 && RoundCount(view) > 2 && IsSummary(view[0]) && UseIds(view[1].content) != []
  }

  /** The last retry of the call did that. */
  predicate LastSplits(trail: seq<Outgoing>) {
    |trail| > 1 && Splits(trail[|trail| - 2].view)
  }

  /** How many messages the loop drops for a truncation: the oldest round of its own view. */
  function Oldest(view: seq<Message>): int {
    if RoundCount(view) > 1 then |view| - |Remainder(view)| else 0
  }

  /** Taking so many messages from the front of the view sent leaves a well-formed view. */
  predicate CutsAt(sent: seq<Message>, n: int) {
    0 < n < |sent| && UseIds(sent[n - 1].content) == []
  }

  /** Without a cache a view has as many messages as the books leave of the conversation, and
      behind its head it is the end of it. The head may have been kept longer. */
  ghost predicate Shaped(all: seq<Message>, s: Outgoing) {
    var dropped := s.books.viewDropped;
    && s.books.cache.None? && Paired(s.view) && 0 <= dropped < |all| && |s.view| == |all| - dropped
    && s.view[1..] == all[dropped + 1..] && UseIds(s.view[0].content) == UseIds(all[dropped].content)
  }

  lemma SameUses(all: seq<Message>, s: Outgoing, i: nat)
    requires Shaped(all, s) && i < |s.view|
    ensures UseIds(s.view[i].content) == UseIds(all[s.books.viewDropped + i].content)
    ensures i > 0 ==> s.view[i..] == all[s.books.viewDropped + i..]
  {
    if i > 0 {
      assert s.view[i] == s.view[1..][i - 1] && s.view[i..] == s.view[1..][i - 1..];
      assert all[s.books.viewDropped + 1..][i - 1..] == all[s.books.viewDropped + i..];
    }
  }

  /** Dropping from the front. */
  lemma FrontShaped(all: seq<Message>, s: Outgoing, end: nat)
    requires Shaped(all, s) && 0 < end < |s.view| && UseIds(s.view[end - 1].content) == [] && Paired(s.view[end..])
    ensures var s' := Outgoing(s.view[end..], Books(None, s.books.viewDropped + end));
            Shaped(all, s') && CutSafe(all, s'.books.viewDropped)
  {
    SameUses(all, s, end - 1);
    SameUses(all, s, end);
  }

  /** Dropping behind the head. */
  lemma BehindShaped(all: seq<Message>, s: Outgoing, end: nat)
    requires Shaped(all, s) && 1 < end <= |s.view| && UseIds(s.view[0].content) == []
    requires UseIds(s.view[end - 1].content) == [] && Paired([s.view[0]] + s.view[end..])
    ensures var s' := Outgoing([s.view[0]] + s.view[end..], Books(None, s.books.viewDropped + end - 1));
            Shaped(all, s') && (CutSafe(all, s'.books.viewDropped) <==> UseIds(s.view[end - 2].content) == [])
  {
    SameUses(all, s, end - 1);
    SameUses(all, s, end - 2);
    assert s.view[end..] == s.view[end - 1..][1..];
  }

  /** What a retry without a cache does. */
  lemma RetryDrops(trail: seq<Outgoing>, k: nat)
    requires Trail(trail) && k + 1 < |trail| && Paired(trail[k].view) && trail[k].books.cache.None?
    ensures RoundCount(trail[k].view) > 1
    ensures var s := trail[k];
            trail[k + 1] ==
              Outgoing(Remainder(s.view), Books(None, s.books.viewDropped + |s.view| - |Remainder(s.view)|))
  {
    assert Retries(trail, k);
    assert trail[k].books == Books(None, trail[k].books.viewDropped);
    DropLeavesRemainder(trail[k].view);
  }

  /** One retry keeps the shape; its count ends inside an exchange exactly when it splits one. */
  lemma RetryShaped(all: seq<Message>, trail: seq<Outgoing>, k: nat)
    requires Trail(trail) && k + 1 < |trail| && Shaped(all, trail[k])
    ensures Shaped(all, trail[k + 1])
    ensures CutSafe(all, trail[k + 1].books.viewDropped) <==> !Splits(trail[k].view)
  {
    RetryDrops(trail, k);
    RemainderShaped(all, trail[k], trail[k + 1]);
  }

  /** Where the oldest round of a view ends, when it goes from the front. */
  lemma FrontRound(view: seq<Message>) returns (end: nat)
    requires Paired(view) && RoundCount(view) > 1 && !(IsSummary(view[0]) && RoundCount(view) > 2)
    ensures 0 < end < |view| && UseIds(view[end - 1].content) == []
    ensures Remainder(view) == view[end..] && Paired(view[end..])
  {
    DropLeavesRemainder(view);
    RoundCountIs(view);
    CutAfterRound(view, 0);
    end := RoundEnd(view, 0);
  }

  /** Where the round behind a look-alike ends: one message on, or two after a call. */
  lemma BehindEnds(view: seq<Message>) returns (end: nat)
    requires Paired(view) && RoundCount(view) > 2 && IsSummary(view[0])
    ensures |view| > 1 && end == (if UseIds(view[1].content) == [] then 2 else 3) && end <= |view|
    ensures RoundsFrom(view, 0)[1].end == end && UseIds(view[end - 1].content) == []
  {
    RoundCountIs(view);
    SummaryHead(view);
    SecondRound(view);
    StrictRoundEnd(view, 1);
    CutAfterRound(view, 1);
    end := RoundEnd(view, 1);
  }

  lemma SummaryAsksNothing(view: seq<Message>)
    requires Paired(view) && view != [] && IsSummary(view[0])
    ensures UseIds(view[0].content) == []
  {
    SummaryHead(view);
    StrictRoundEnd(view, 0);
  }

  lemma BehindRemainder(view: seq<Message>, end: nat)
    requires Paired(view) && RoundCount(view) > 2 && IsSummary(view[0]) && RoundsFrom(view, 0)[1].end == end <= |view|
    ensures Remainder(view) == [view[0]] + view[end..] && Paired([view[0]] + view[end..])
  {
    DropLeavesRemainder(view);
  }

  lemma RemainderShaped(all: seq<Message>, s: Outgoing, s': Outgoing)
    requires Shaped(all, s) && RoundCount(s.view) > 1
    requires s' == Outgoing(Remainder(s.view), Books(None, s.books.viewDropped + |s.view| - |Remainder(s.view)|))
    ensures Shaped(all, s') && (CutSafe(all, s'.books.viewDropped) <==> !Splits(s.view))
  {
    if IsSummary(s.view[0]) && RoundCount(s.view) > 2 {
      HeadKept(all, s, s');
    } else {
      var end := FrontRound(s.view);
      FrontShaped(all, s, end);
    }
  }

  lemma HeadKept(all: seq<Message>, s: Outgoing, s': Outgoing)
    requires Shaped(all, s) && RoundCount(s.view) > 2 && IsSummary(s.view[0])
    requires s' == Outgoing(Remainder(s.view), Books(None, s.books.viewDropped + |s.view| - |Remainder(s.view)|))
    ensures |s.view| > 1 && Shaped(all, s')
    ensures CutSafe(all, s'.books.viewDropped) <==> UseIds(s.view[1].content) == []
  {
    SummaryAsksNothing(s.view);
    var end := BehindEnds(s.view);
    BehindRemainder(s.view, end);
    BehindShaped(all, s, end);
  }

  lemma {:induction false} TrailShaped(all: seq<Message>, trail: seq<Outgoing>, n: nat)
    requires Trail(trail) && n < |trail| && Shaped(all, trail[0])
    ensures Shaped(all, trail[n])
  {
    if n > 0 {
      TrailShaped(all, trail, n - 1);
      RetryShaped(all, trail, n - 1);
    }
  }

  /** A call without a cache starts from what a cut leaves of the conversation. */
  ghost predicate Starts(all: seq<Message>, s: Outgoing) {
    Paired(all) && s.books.cache.None? && InView(all, s.books.viewDropped) && s.view == all[s.books.viewDropped..]
  }

  lemma StartShaped(all: seq<Message>, s: Outgoing)
    requires Starts(all, s) && all != []
    ensures Shaped(all, s)
  {
    CutPaired(all, s.books.viewDropped);
  }

  /** After the last retry the books cut the conversation between its messages exactly when
      that retry splits no exchange. */
  lemma TrailInView(all: seq<Message>, trail: seq<Outgoing>) returns (last: Outgoing)
    requires Trail(trail) && Starts(all, trail[0]) && all != []
    ensures last == trail[|trail| - 1] && Shaped(all, last)
    ensures InView(all, last.books.viewDropped) <==> !LastSplits(trail)
  {
    last := trail[|trail| - 1];
    StartShaped(all, trail[0]);
    if |trail| > 1 {
      RetriedInView(all, trail, |trail| - 2);
      SplitsLast(trail);
    }
  }

  lemma SplitsLast(trail: seq<Outgoing>)
    requires |trail| > 1
    ensures LastSplits(trail) <==> Splits(trail[|trail| - 2].view)
  {
  }

  lemma RetriedInView(all: seq<Message>, trail: seq<Outgoing>, k: nat)
    requires Trail(trail) && k + 1 < |trail| && Shaped(all, trail[0])
    ensures Shaped(all, trail[k + 1]) && (InView(all, trail[k + 1].books.viewDropped) <==> !Splits(trail[k].view))
  {
    TrailShaped(all, trail, k);
    RetryShaped(all, trail, k);
  }

  lemma NothingToRetry(trail: seq<Outgoing>)
    requires Trail(trail) && trail[0].view == []
    ensures |trail| == 1
  {
    if |trail| > 1 {
      assert Retries(trail, 0);
      NothingToDropHere();
    }
  }

  lemma NothingToDropHere()
    ensures DropForOverflow([]).Refused?
  {
    DropLeavesRemainder([]);
  }

  lemma LoopDropsOldest(view: seq<Message>, dropped: int) returns (next: Books)
    requires Paired(view) && RoundCount(view) > 1
    ensures next == Books(None, dropped + Oldest(view)) && Loop.LoopDrop(view, Books(None, dropped)) == Some(next)
  {
    DropLeavesRemainder(view);
    next := LoopDropIs(view, Remainder(view), dropped);
  }

  lemma LoopDropIs(view: seq<Message>, shrunk: seq<Message>, dropped: int) returns (next: Books)
    requires DropForOverflow(view) == Dropped(shrunk)
    ensures next == Books(None, dropped + |view| - |shrunk|) && Loop.LoopDrop(view, Books(None, dropped)) == Some(next)
  {
    next := Books(None, dropped + |view| - |shrunk|);
  }

  lemma OldestIsSome(view: seq<Message>)
    requires Paired(view) && RoundCount(view) > 1
    ensures Oldest(view) > 0
  {
    RemainderShorter(view);
  }

  /** Counting more messages as dropped gives a cut exactly when it would cut the view sent. */
  lemma CutFurther(all: seq<Message>, s: Outgoing, n: int)
    requires Shaped(all, s) && n > 0
    ensures InView(all, s.books.viewDropped + n) <==> CutsAt(s.view, n)
  {
    if n < |s.view| {
      SameUses(all, s, n - 1);
    }
  }

  /** It fits whenever the call had no retry and no look-alike leads the view. */
  lemma OldestCuts(view: seq<Message>)
    requires Paired(view) && RoundCount(view) > 1 && !(IsSummary(view[0]) && RoundCount(view) > 2)
    ensures CutsAt(view, Oldest(view))
  {
    RoundCountIs(view);
    CutAfterRound(view, 0);
  }

  /** The view of the last try. */
  function SentLast(m: Made): seq<Message> {
    if m.tries == [] then [] else m.tries[|m.tries| - 1].sent.view
  }

  lemma BooksNextAre(cfg: Loop.Config, view: seq<Message>, t: Loop.Turn, dropped: int) returns (next: Books)
    requires t.booksAfter == Books(None, dropped) && Paired(view) && (Loop.Recovers(cfg, t) ==> RoundCount(view) > 1)
    ensures next == Loop.BooksNext(cfg, view, t)
    ensures next == Books(None, if Loop.Recovers(cfg, t) then dropped + Oldest(view) else dropped)
    ensures Loop.Recovers(cfg, t) ==> Oldest(view) > 0
  {
    next := Books(None, dropped);
    if Loop.Recovers(cfg, t) {
      next := LoopDropsOldest(view, dropped);
      OldestIsSome(view);
    }
  }

  /** What a turn drops in all leaves a well-formed view: a recovered truncation must cut the
      view sent last, and otherwise the last retry must split no exchange. */
  ghost predicate Sound(cfg: Loop.Config, view: seq<Message>, t: Loop.Turn, trail: seq<Outgoing>) {
    trail != [] &&
    if Loop.Recovers(cfg, t) then CutsAt(trail[|trail| - 1].view, Oldest(view)) else !LastSplits(trail)
  }

  lemma NextInView(all: seq<Message>, last: Outgoing, oldest: int, recovers: bool, dropped: int)
    requires Shaped(all, last) && (recovers ==> oldest > 0)
    requires dropped == if recovers then last.books.viewDropped + oldest else last.books.viewDropped
    ensures if recovers then InView(all, dropped) <==> CutsAt(last.view, oldest) else 0 <= dropped < |all|
  {
    if recovers {
      CutFurther(all, last, oldest);
    }
  }

  lemma ShapedBooks(all: seq<Message>, s: Outgoing)
    requires Shaped(all, s)
    ensures s.books == Books(None, s.books.viewDropped) && 0 <= s.books.viewDropped < |all|
  {
  }

  /** Main result for one iteration without compression: the loop goes on with well-formed
      views exactly when what the turn drops in all is sound. */
  lemma IterationInView(cfg: Loop.Config, all: seq<Message>, t: Loop.Turn, trail: seq<Outgoing>)
    requires Trail(trail) && Starts(all, trail[0]) && all != [] && t.booksAfter == trail[|trail| - 1].books
    requires Loop.Recovers(cfg, t) ==> RoundCount(trail[0].view) > 1
    ensures Loop.BooksNext(cfg, trail[0].view, t).cache.None?
    ensures var dropped := Loop.BooksNext(cfg, trail[0].view, t).viewDropped;
            (InView(all, dropped) <==> Sound(cfg, trail[0].view, t, trail)) &&
            (!Loop.Recovers(cfg, t) ==> 0 <= dropped < |all|)
  {
    var last := TrailInView(all, trail);
    FirstPaired(all, trail[0]);
    ShapedBooks(all, last);
    var next := BooksNextAre(cfg, trail[0].view, t, last.books.viewDropped);
    NextInView(all, last, Oldest(trail[0].view), Loop.Recovers(cfg, t), next.viewDropped);
  }

  lemma FirstPaired(all: seq<Message>, s: Outgoing)
    requires Starts(all, s)
    ensures Paired(s.view)
  {
    CutPaired(all, s.books.viewDropped);
  }

  /** The same of an empty conversation, from which nothing can be dropped. */
  lemma EmptyInView(cfg: Loop.Config, t: Loop.Turn, trail: seq<Outgoing>)
    requires Trail(trail) && Starts([], trail[0]) && t.booksAfter == trail[|trail| - 1].books
    requires Loop.Recovers(cfg, t) ==> RoundCount(trail[0].view) > 1
    ensures Loop.BooksNext(cfg, trail[0].view, t) == Books(None, 0) && Sound(cfg, trail[0].view, t, trail)
  {
    EmptyStart(trail[0]);
    NothingToRetry(trail);
    NoRounds();
    OneTry(cfg, t, trail);
  }

  lemma EmptyStart(s: Outgoing)
    requires Starts([], s)
    ensures s == Outgoing([], Books(None, 0))
  {
    assert s.books == Books(None, s.books.viewDropped);
  }

  lemma OneTry(cfg: Loop.Config, t: Loop.Turn, trail: seq<Outgoing>)
    requires |trail| == 1 && !Loop.Recovers(cfg, t) && t.booksAfter == trail[0].books
    ensures Loop.BooksNext(cfg, trail[0].view, t) == t.booksAfter && Sound(cfg, trail[0].view, t, trail)
  {
  }

  lemma NoRounds()
    ensures RoundCount([]) == 0
  {
    RoundCountIs([]);
  }

  // ---- Whole runs ---------------------------------------------------------------------------------------

  /** One iteration as a model call on the rebuilt view. */
  lemma TurnRebuilds(setup: Setup, base: seq<Message>, around: Around, s0: Loop.State, t: Loop.Turn, m: Made,
                     s: Loop.State) returns (added: seq<Message>)
    requires TurnMade(setup, base, around, s0, t, m) && Grown(setup, base, s0, t, s) && Stays(setup, base, s0, t)
    requires around.turn.injected == []
    ensures CallMade(setup, around, Rebuilt(base + s0.produced, s0.books.viewDropped), s0.books, t, m)
    ensures s.books == Loop.BooksNext(setup.loop, Rebuilt(base + s0.produced, s0.books.viewDropped), t)
    ensures s.produced == s0.produced + added && (Loop.Recovers(setup.loop, t) ==> added == [])
  {
    var view := Loop.ViewOf(base, s0, t);
    assert CallsModel(around.turn) && t.injected == [];
    assert view == Rebuilt(base + s0.produced, s0.books.viewDropped);
    added := Loop.TurnEffect(setup.loop, setup.env, s0.recovered, view, t).messages;
  }

  /** A recovery the loop goes on from had a round to drop. */
  lemma RecoveryHadRounds(setup: Setup, base: seq<Message>, s0: Loop.State, t: Loop.Turn)
    requires Stays(setup, base, s0, t) && t.injected == [] && Loop.Recovers(setup.loop, t)
    requires Paired(Rebuilt(base + s0.produced, s0.books.viewDropped))
    ensures RoundCount(Rebuilt(base + s0.produced, s0.books.viewDropped)) > 1
  {
    var view := Loop.ViewOf(base, s0, t);
    assert view == Rebuilt(base + s0.produced, s0.books.viewDropped);
    DropLeavesRemainder(view);
  }

  lemma RebuildsAt(setup: Setup, base: seq<Message>, arounds: nat -> Around, turns: seq<Loop.Turn>, made: seq<Made>,
                   states: seq<Loop.State>, n: nat) returns (added: seq<Message>)
    requires RunStates(setup, base, turns, states) && n + 1 < |turns|
    requires Composed(setup, base, arounds, turns, made, states[..|turns|])
    requires arounds(n).turn.injected == []
    ensures CallMade(setup, arounds(n), Rebuilt(base + states[n].produced, states[n].books.viewDropped),
                     states[n].books,
                     turns[n], made[n])
    ensures states[n + 1].books ==
            Loop.BooksNext(setup.loop, Rebuilt(base + states[n].produced, states[n].books.viewDropped), turns[n])
    ensures base + states[n + 1].produced == base + states[n].produced + added
    ensures Loop.Recovers(setup.loop, turns[n]) ==> added == []
    ensures Loop.Recovers(setup.loop, turns[n]) &&
            Paired(Rebuilt(base + states[n].produced, states[n].books.viewDropped)) ==>
              RoundCount(Rebuilt(base + states[n].produced, states[n].books.viewDropped)) > 1
  {
    InvAt(setup, base, turns, states, n);
    assert Staying(setup, base)(states[n], turns[n]);
    assert Rule(setup, base, arounds)(n, states[..|turns|][n], turns[n], made[n]);
    added := TurnRebuilds(setup, base, arounds(n), states[n], turns[n], made[n], states[n + 1]);
    JoinedBehind(base, states[n].produced, added, states[n + 1].produced);
    if Loop.Recovers(setup.loop, turns[n]) && Paired(Rebuilt(base + states[n].produced, states[n].books.viewDropped)) {
      RecoveryHadRounds(setup, base, states[n], turns[n]);
    }
  }

  /** Before iteration n no cache exists, and the books cut a prefix off the conversation. */
  ghost function ViewedAt(base: seq<Message>, states: seq<Loop.State>): nat -> bool {
    (n: nat) => n < |states| && states[n].books.cache.None? &&
                InView(base + states[n].produced, states[n].books.viewDropped)
  }

  /** What iteration n drops in all leaves a well-formed view. */
  ghost predicate Fits(setup: Setup, base: seq<Message>, turns: seq<Loop.Turn>, made: seq<Made>,
                       states: seq<Loop.State>, n: nat)
    requires n < |turns| && n < |made| && n < |states|
  {
    Sound(setup.loop, Rebuilt(base + states[n].produced, states[n].books.viewDropped), turns[n],
          Attempts.Sent(made[n].tries))
  }

  /** Iteration n runs without compression. */
  ghost predicate Uncompressed(setup: Setup, around: Around, m: Made) {
    around.turn.injected == [] && (setup.compress.window <= 0 || m.tripped)
  }

  /** Main result without compression, both ways: from one iteration to the next the rebuilt
      view stays what a cut leaves of the conversation, exactly when what the retries and the
      recovery of the iteration drop in all is sound. */
  lemma IterationKeepsView(setup: Setup, base: seq<Message>, arounds: nat -> Around, turns: seq<Loop.Turn>,
                           made: seq<Made>, states: seq<Loop.State>, n: nat)
    requires RunStates(setup, base, turns, states) && n + 1 < |turns|
    requires Composed(setup, base, arounds, turns, made, states[..|turns|])
    requires Uncompressed(setup, arounds(n), made[n])
    requires Paired(base + states[n].produced) && ViewedAt(base, states)(n)
    ensures ViewedAt(base, states)(n + 1) <==> Fits(setup, base, turns, made, states, n)
  {
    var all, books := base + states[n].produced, states[n].books;
    var added := RebuildsAt(setup, base, arounds, turns, made, states, n);
    ViewIsTail(all, books.viewDropped);
    OneCall(setup, arounds(n), all, books, turns[n], made[n], added, base + states[n + 1].produced);
  }

  /** The trail of a model call without compression. */
  lemma CallStarts(setup: Setup, around: Around, all: seq<Message>, books: Books, t: Loop.Turn, m: Made)
    returns (trail: seq<Outgoing>)
    requires CallMade(setup, around, Rebuilt(all, books.viewDropped), books, t, m) && Uncompressed(setup, around, m)
    requires Paired(all) && books.cache.None? && InView(all, books.viewDropped)
    ensures trail == Attempts.Sent(m.tries) && Trail(trail) && Starts(all, trail[0])
    ensures trail[0].view == Rebuilt(all, books.viewDropped) && t.booksAfter == trail[|trail| - 1].books
  {
    trail := Attempts.Sent(m.tries);
    ViewIsTail(all, books.viewDropped);
  }

  lemma OneCall(setup: Setup, around: Around, all: seq<Message>, books: Books, t: Loop.Turn, m: Made,
                added: seq<Message>, grown: seq<Message>)
    requires CallMade(setup, around, Rebuilt(all, books.viewDropped), books, t, m) && Uncompressed(setup, around, m)
    requires Paired(all) && books.cache.None? && InView(all, books.viewDropped) && grown == all + added
    requires Loop.Recovers(setup.loop, t) ==> added == [] && RoundCount(Rebuilt(all, books.viewDropped)) > 1
    ensures var view := Rebuilt(all, books.viewDropped);
            var next := Loop.BooksNext(setup.loop, view, t);
            next.cache.None? &&
            (InView(grown, next.viewDropped) <==> Sound(setup.loop, view, t, Attempts.Sent(m.tries)))
  {
    var trail := CallStarts(setup, around, all, books, t, m);
    TrailGrows(setup.loop, all, t, trail, added, grown);
  }

  lemma TrailGrows(cfg: Loop.Config, all: seq<Message>, t: Loop.Turn, trail: seq<Outgoing>, added: seq<Message>,
                   grown: seq<Message>)
    requires Trail(trail) && Starts(all, trail[0]) && t.booksAfter == trail[|trail| - 1].books && grown == all + added
    requires Loop.Recovers(cfg, t) ==> added == [] && RoundCount(trail[0].view) > 1
    ensures var next := Loop.BooksNext(cfg, trail[0].view, t);
            next.cache.None? && (InView(grown, next.viewDropped) <==> Sound(cfg, trail[0].view, t, trail))
  {
    if all == [] {
      EmptyInView(cfg, t, trail);
    } else {
      IterationInView(cfg, all, t, trail);
      if Loop.Recovers(cfg, t) {
        assert grown == all;
      } else {
        InViewGrows(all, added, Loop.BooksNext(cfg, trail[0].view, t).viewDropped);
      }
    }
  }

  lemma ViewNext(setup: Setup, base: seq<Message>, arounds: nat -> Around, turns: seq<Loop.Turn>, made: seq<Made>,
                 states: seq<Loop.State>, n: nat)
    requires RunStates(setup, base, turns, states) && n + 1 < |turns|
    requires Composed(setup, base, arounds, turns, made, states[..|turns|])
    requires Uncompressed(setup, arounds(n), made[n]) && Fits(setup, base, turns, made, states, n)
    requires Paired(base + states[n].produced)
    ensures OverflowProperties.Next(ViewedAt(base, states), n)
  {
    if ViewedAt(base, states)(n) {
      IterationKeepsView(setup, base, arounds, turns, made, states, n);
    }
  }

  lemma {:induction false} PairedSoFar(setup: Setup, base: seq<Message>, turns: seq<Loop.Turn>, states: seq<Loop.State>,
                                       n: nat, m: nat)
    requires RunStates(setup, base, turns, states) && m <= n < |turns| && Paired(base + states[n].produced)
    ensures Paired(base + states[m].produced)
    decreases n - m
  {
    if m < n {
      PairedSoFar(setup, base, turns, states, n, m + 1);
      InvAt(setup, base, turns, states, m);
      InvAt(setup, base, turns, states, m + 1);
      var added := Added(setup, base, states[m], turns[m], states[m + 1]);
      PairedBefore(base, states[m].produced, added);
    }
  }

  /** Main result over whole runs without compression: the loop always rebuilds what a cut
      leaves of the conversation, as long as what each iteration drops in all is sound. */
  lemma RunKeepsView(setup: Setup, base: seq<Message>, arounds: nat -> Around, turns: seq<Loop.Turn>,
                     made: seq<Made>, states: seq<Loop.State>, n: nat)
    requires RunStates(setup, base, turns, states) && n < |turns|
    requires Composed(setup, base, arounds, turns, made, states[..|turns|])
    requires forall m :: 0 <= m < n ==>
               Uncompressed(setup, arounds(m), made[m]) && Fits(setup, base, turns, made, states, m)
    requires Paired(base + states[n].produced)
    ensures var all, dropped := base + states[n].produced, states[n].books.viewDropped;
            InView(all, dropped) && Rebuilt(all, dropped) == all[dropped..] && Paired(Rebuilt(all, dropped))
  {
    var viewed := ViewedAt(base, states);
    forall m: nat | m < n ensures OverflowProperties.Next(viewed, m) {
      PairedSoFar(setup, base, turns, states, n, m);
      ViewNext(setup, base, arounds, turns, made, states, m);
    }
    assert viewed(0);
    Persists(viewed, n, n);
    assert viewed(n);
    ViewIsTail(base + states[n].produced, states[n].books.viewDropped);
  }
}
