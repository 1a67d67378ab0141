/** The overflow fallback keeps the run's books in step with the view it sends
    (internal/agent/middleware.go:392-448, internal/agent/loop.go:424-433). */
module OverflowProperties {
  import opened Provider
  import opened Pairing
  import opened PairingSpec
  import opened PairingProperties
  import opened Rounds
  import opened RoundsProperties
  import opened Budget
  import opened Compress
  import opened CompressProperties
  import opened CompressRuns
  import opened Middleware

  // ---- What one drop takes from a well-formed view -----------------------------------

  function RoundCount(view: seq<Message>): nat {
    |RoundsFrom(view, 0)|
  }

  lemma RoundCountIs(view: seq<Message>)
    requires Paired(view)
    ensures RoundCount(view) == 0 <==> view == []
    ensures view != [] ==> (RoundCount(view) == 1 <==> RoundEnd(view, 0) == |view|)
    ensures |view| > 1 && RoundEnd(view, 0) == 1 ==> (RoundCount(view) == 2 <==> RoundEnd(view, 1) == |view|)
  {
    if view != [] {
      var end := RoundEnd(view, 0);
      assert RoundsFrom(view, 0) == [Round(0, end)] + RoundsFrom(view, end);
      if end < |view| {
        assert RoundsFrom(view, end) == [Round(end, RoundEnd(view, end))] + RoundsFrom(view, RoundEnd(view, end));
      }
    }
  }

  /** The view after one drop, by the shape of the view. */
  function Remainder(view: seq<Message>): seq<Message>
    requires RoundCount(view) > 1
  {
    var rounds := RoundsFrom(view, 0);
    if IsSummary(view[0]) && RoundCount(view) > 2 then [view[0]] + view[rounds[1].end..]
    else view[rounds[0].end..]
  }

  lemma DropLeavesRemainder(view: seq<Message>)
    requires Paired(view)
    ensures RoundCount(view) <= 1 ==> DropForOverflow(view) == Refused
    ensures RoundCount(view) > 1 ==>
      DropForOverflow(view) == Dropped(Remainder(view)) && Paired(Remainder(view)) && Remainder(view) != []
  {
    RoundCountIs(view);
    if RoundCount(view) > 1 {
      DropFront(view);
      assert RoundsFrom(view, 0)[0].end == RoundEnd(view, 0);
      if IsSummary(view[0]) {
        SummaryHead(view);
        SecondRound(view);
        DropSecond(view);
      }
    }
  }

  // ---- With a compression cache --------------------------------------------------------

  /** The view is the cached summary and everything the cache does not cover. */
  ghost predicate Led(history: seq<Message>, view: seq<Message>, c: Cache) {
    0 < c.covered <= |history| && Aligned(history, c) && view == Compressed(c.summary, history, c.covered)
  }

  /** The view is led by the cached summary, or the cache was reset. */
  ghost predicate InStep(history: seq<Message>, view: seq<Message>, c: Cache) {
    c == NO_CACHE || Led(history, view, c)
  }

  /** Everything behind the first message of the view is the end of the history. */
  predicate FromHistory(history: seq<Message>, view: seq<Message>) {
    |view| <= |history| + 1 && (view != [] ==> view[1..] == history[|history| + 1 - |view|..])
  }

  /** Where a call may stand: whatever leads the view, and whatever the cache covers. */
  ghost predicate Standing(history: seq<Message>, view: seq<Message>, c: Cache) {
    Aligned(history, c) && Paired(view) && FromHistory(history, view)
  }

  /** The view has the head and the length of the cached summary and what is not covered. */
  predicate LooksLed(history: seq<Message>, view: seq<Message>, c: Cache) {
    view != [] && view[0] == SummaryMessage(c.summary) && |view| + c.covered == |history| + 1
  }

  /** The views on which the fallback takes a user's message for the cached summary: a view
      that is not led by it starts with a look-alike, or the only message left behind the
      head is one. */
  predicate MistakesHead(history: seq<Message>, view: seq<Message>, c: Cache) {
    c.covered > 0 && RoundCount(view) > 1 && view != [] && IsSummary(view[0]) &&
    if RoundCount(view) > 2 then !LooksLed(history, view, c)
    else |view| > 1 && IsSummary(view[1]) && !(view[1] == SummaryMessage(c.summary) && c.covered + 1 == |history|)
  }

  lemma LooksLedIs(history: seq<Message>, view: seq<Message>, c: Cache)
    requires Standing(history, view, c) && c.covered > 0
    ensures LooksLed(history, view, c) <==> Led(history, view, c)
  {
    if LooksLed(history, view, c) {
      assert view == [view[0]] + view[1..];
    }
  }

  lemma LedStands(history: seq<Message>, view: seq<Message>, c: Cache)
    requires Paired(history) && Led(history, view, c)
    ensures Standing(history, view, c)
  {
    CompressedPaired(c.summary, history, c.covered);
  }

  lemma AdvancedInStep(history: seq<Message>, c: Cache, to: nat)
    requires 0 < c.covered <= to <= |history| && Aligned(history, c) && CutSafe(history, to)
    ensures var c' := Advanced(c, history[c.covered..to]);
            c' == Cache(to, Bytes(history[..to]), c.summary) && Aligned(history, c')
  {
    assert history[..to] == history[..c.covered] + history[c.covered..to];
    BytesConcat(history[..c.covered], history[c.covered..to]);
  }

  lemma RemainderBehind(summary: string, history: seq<Message>, from: nat) returns (to: nat)
    requires Paired(history) && from <= |history| && CutSafe(history, from)
    requires RoundCount(Compressed(summary, history, from)) > 2
    ensures from < to <= |history| && CutSafe(history, to)
    ensures Remainder(Compressed(summary, history, from)) == Compressed(summary, history, to)
  {
    var view := Compressed(summary, history, from);
    CompressedPaired(summary, history, from);
    SummaryIsPlain(summary);
    SummaryHead(view);
    RoundCountIs(view);
    SecondRound(view);
    CutAfterRound(view, 1);
    to := ViewCut(summary, history, from, RoundEnd(view, 1));
  }

  lemma RebookedBehind(history: seq<Message>, c: Cache, to: nat)
    requires 0 < c.covered <= to <= |history| && Aligned(history, c) && CutSafe(history, to)
    requires c.covered < to
    ensures var view, shrunk := Compressed(c.summary, history, c.covered), Compressed(c.summary, history, to);
            Rebooked(c, view, shrunk) == Cache(to, Bytes(history[..to]), c.summary) &&
            InStep(history, shrunk, Rebooked(c, view, shrunk))
  {
    var view, shrunk := Compressed(c.summary, history, c.covered), Compressed(c.summary, history, to);
    SummaryIsPlain(c.summary);
    assert view[1..1 + |view| - |shrunk|] == history[c.covered..to];
    AdvancedInStep(history, c, to);
  }

  /** Dropping one round behind the summary advances the coverage past it. */
  lemma DropBehindSummary(history: seq<Message>, c: Cache)
    requires Paired(history) && 0 < c.covered <= |history| && Aligned(history, c)
    requires RoundCount(Compressed(c.summary, history, c.covered)) > 2
    ensures var view := Compressed(c.summary, history, c.covered);
            var shrunk := Remainder(view);
            InStep(history, shrunk, Rebooked(c, view, shrunk))
  {
    var to := RemainderBehind(c.summary, history, c.covered);
    RebookedBehind(history, c, to);
  }

  lemma LastIsCut(history: seq<Message>)
    requires Paired(history)
    ensures CutSafe(history, |history|)
  {
    assert history != [] ==> StrictAt(history, |history| - 1);
  }

  lemma RemainderFrom(history: seq<Message>, view: seq<Message>)
    requires Paired(view) && FromHistory(history, view) && RoundCount(view) > 1
    ensures FromHistory(history, Remainder(view))
  {
    RoundCountIs(view);
    if IsSummary(view[0]) && RoundCount(view) > 2 {
      SummaryHead(view);
      SecondRound(view);
      HeadAndTail(history, view, RoundEnd(view, 1));
    } else {
      TailFrom(history, view, RoundEnd(view, 0));
    }
  }

  lemma HeadAndTail(history: seq<Message>, view: seq<Message>, end: nat)
    requires FromHistory(history, view) && 0 < end <= |view|
    ensures FromHistory(history, [view[0]] + view[end..])
  {
    assert ([view[0]] + view[end..])[1..] == view[end..] == view[1..][end - 1..];
  }

  lemma TailFrom(history: seq<Message>, view: seq<Message>, end: nat)
    requires FromHistory(history, view) && 0 < end <= |view|
    ensures FromHistory(history, view[end..])
  {
    assert end < |view| ==> view[end..][1..] == view[1..][end..];
  }

  /** What a retry has done to the cache: left it alone, or kept it in step with the view. */
  ghost predicate KeepsBooks(history: seq<Message>, view: seq<Message>, c: Cache, after: Cache) {
    after == c || InStep(history, view, after)
  }

  /** Behind a head that looks like a summary a drop advances the coverage. */
  lemma BehindHead(history: seq<Message>, view: seq<Message>, c: Cache)
    requires Paired(history) && Standing(history, view, c) && c.covered > 0
    requires RoundCount(view) > 2 && IsSummary(view[0])
    ensures KeepsBooks(history, Remainder(view), c, Rebooked(c, view, Remainder(view))) <==> LooksLed(history, view, c)
    ensures Rebooked(c, view, Remainder(view)) != c
  {
    LooksLedIs(history, view, c);
    RoundCountIs(view);
    SummaryHead(view);
    SecondRound(view);
    var end, shrunk := RoundEnd(view, 1), Remainder(view);
    assert shrunk == [view[0]] + view[end..];
    assert Rebooked(c, view, shrunk) == Advanced(c, view[1..end]);
    if LooksLed(history, view, c) {
      DropBehindSummary(history, c);
    }
  }

  /** With one round behind such a head, the head goes, and the cache with it unless what is
      left looks like a summary again. */
  lemma HeadGoes(history: seq<Message>, view: seq<Message>, c: Cache)
    requires Paired(history) && Standing(history, view, c) && c.covered > 0
    requires RoundCount(view) == 2 && view != [] && IsSummary(view[0])
    ensures KeepsBooks(history, Remainder(view), c, Rebooked(c, view, Remainder(view))) <==>
            !MistakesHead(history, view, c)
    ensures Rebooked(c, view, Remainder(view)) != c
  {
    RoundCountIs(view);
    SummaryHead(view);
    assert Remainder(view) == view[1..];
    if IsSummary(view[1]) {
      assert RoundEnd(view, 1) == 2 == |view|;
      assert Rebooked(c, view, view[1..]) == Advanced(c, view[1..2]) && view[1..2] == [view[1]];
      if view[1] == SummaryMessage(c.summary) && c.covered + 1 == |history| {
        LastIsCut(history);
        assert view[1..2] == history[c.covered..|history|];
        AdvancedInStep(history, c, |history|);
        assert Compressed(c.summary, history, |history|) == view[1..];
      } else {
        var after := Advanced(c, view[1..2]);
        assert after.covered <= |history| ==>
          |Compressed(c.summary, history, after.covered)| == 1 + |history| - after.covered;
        assert after.covered <= |history| ==>
          Compressed(c.summary, history, after.covered)[0] == SummaryMessage(c.summary);
      }
    }
  }

  /** Main result with a cache: whatever leads the view, a retry leaves the cache alone or
      keeps it in step with the view, exactly unless it takes a user's message for the
      cached summary. */
  lemma RetryInStep(history: seq<Message>, view: seq<Message>, c: Cache, dropped: int)
    requires Paired(history) && Standing(history, view, c) && RoundCount(view) > 1
    ensures var r := RetryStep(view, Books(Some(c), dropped));
            r.Retried? && r.books.cache.Some? && r.books.viewDropped == dropped && Paired(r.view) &&
            FromHistory(history, r.view) &&
            (KeepsBooks(history, r.view, c, r.books.cache.value) <==> !MistakesHead(history, view, c)) &&
            (Led(history, view, c) ==> r.books.cache.value != c)
  {
    DropLeavesRemainder(view);
    RemainderFrom(history, view);
    RoundCountIs(view);
    if c.covered > 0 && IsSummary(view[0]) {
      if RoundCount(view) > 2 {
        BehindHead(history, view, c);
      } else {
        HeadGoes(history, view, c);
      }
    } else {
      SummaryIsPlain(c.summary);
    }
  }

  lemma UserTextPlain(text: string)
    ensures Plain(TextMessage(RoleUser, text)) && RoleClean([TextMessage(RoleUser, text)])
  {
    NoneOf(TextMessage(RoleUser, text).content);
  }

  lemma TwoPaired(text: string, marked: string)
    ensures Paired([TextMessage(RoleUser, text), SummaryMessage(marked)])
    ensures UseIds(TextMessage(RoleUser, text).content) == []
  {
    UserTextPlain(text);
    SummaryIsPlain(marked);
    PlainFirst(SummaryMessage(marked), []);
    assert [SummaryMessage(marked)] + [] == [SummaryMessage(marked)];
    PlainFirst(TextMessage(RoleUser, text), [SummaryMessage(marked)]);
    assert [TextMessage(RoleUser, text)] + [SummaryMessage(marked)] ==
             [TextMessage(RoleUser, text), SummaryMessage(marked)];
  }

  /** The smallest such case: two user messages, the second starting with the marker; the
      first is covered, so the retry drops the summary and takes the second for it. */
  lemma MistakenUserMessage(text: string, marked: string, summary: string)
    requires SummaryMessage(marked) != SummaryMessage(summary)
    ensures var history := [TextMessage(RoleUser, text), SummaryMessage(marked)];
            var c := Cache(1, Bytes(history[..1]), summary);
            var r := RetryStep(Compressed(summary, history, 1), Books(Some(c), 0));
            Paired(history) && Aligned(history, c) && r.Retried? && r.books.cache.Some? &&
            !InStep(history, r.view, r.books.cache.value)
  {
    var history := [TextMessage(RoleUser, text), SummaryMessage(marked)];
    var c := Cache(1, Bytes(history[..1]), summary);
    TwoPaired(text, marked);
    var view := Compressed(summary, history, 1);
    CompressedPaired(summary, history, 1);
    SummaryIsPlain(summary);
    SummaryHead(view);
    RoundCountIs(view);
    LedStands(history, view, c);
    RetryInStep(history, view, c, 0);
  }

  /** The smallest case without a summary in the view: the summarizer failed while the cache
      covered two messages, and the first message looks like a summary. The message dropped
      is the second, the message the cache comes to cover the third, which is still in the
      view; the fingerprint notices exactly when the two differ in size. */
  lemma LookAlikeHead(marked: string, a: string, b: string, d: string, summary: string)
    ensures var history := [SummaryMessage(marked), TextMessage(RoleUser, a), TextMessage(RoleUser, b),
                            TextMessage(RoleUser, d)];
            var c := Cache(2, Bytes(history[..2]), summary);
            var r := RetryStep(history, Books(Some(c), 0));
            Paired(history) && Standing(history, history, c) && MistakesHead(history, history, c) &&
            r == Retried([history[0], history[2], history[3]], Books(Some(Advanced(c, [history[1]])), 0)) &&
            r.books.cache.value.covered == 3 && !InStep(history, r.view, r.books.cache.value) &&
            (Aligned(history, r.books.cache.value) <==> ByteLen(a) == ByteLen(b))
  {
    var history := [SummaryMessage(marked), TextMessage(RoleUser, a), TextMessage(RoleUser, b),
                    TextMessage(RoleUser, d)];
    FourPaired(marked, a, b, d);
    FourRounds(history);
    LookAlikeRetry(history, summary);
    TextBytes(a);
    TextBytes(b);
  }

  /** The retry itself, for any four single messages led by a look-alike. */
  lemma LookAlikeRetry(history: seq<Message>, summary: string)
    requires Paired(history) && |history| == 4 && IsSummary(history[0])
    requires RoundsFrom(history, 0) == [Round(0, 1), Round(1, 2), Round(2, 3), Round(3, 4)]
    requires UseIds(history[1].content) == [] && UseIds(history[2].content) == []
    ensures var c := Cache(2, Bytes(history[..2]), summary);
            var r := RetryStep(history, Books(Some(c), 0));
            Standing(history, history, c) && MistakesHead(history, history, c) &&
            r == Retried([history[0], history[2], history[3]], Books(Some(Advanced(c, [history[1]])), 0)) &&
            !InStep(history, r.view, r.books.cache.value) &&
            (Aligned(history, r.books.cache.value) <==> Bytes([history[1]]) == Bytes([history[2]]))
  {
    var c := Cache(2, Bytes(history[..2]), summary);
    LookAlikeStep(history, c);
    RetryInStep(history, history, c, 0);
    ThirdCovered(history, summary);
  }

  lemma RetryIs(view: seq<Message>, shrunk: seq<Message>, c: Cache, dropped: int)
    requires DropForOverflow(view) == Dropped(shrunk)
    ensures RetryStep(view, Books(Some(c), dropped)) == Retried(shrunk, Books(Some(Rebooked(c, view, shrunk)), dropped))
  {
  }

  lemma RebookedLookAlike(c: Cache, view: seq<Message>, shrunk: seq<Message>)
    requires c.covered > 0 && |view| == 4 && IsSummary(view[0]) && shrunk == [view[0], view[2], view[3]]
    ensures Rebooked(c, view, shrunk) == Advanced(c, [view[1]])
  {
    assert view[1..2] == [view[1]];
  }

  lemma LookAlikeStep(history: seq<Message>, c: Cache)
    requires Paired(history) && |history| == 4 && IsSummary(history[0]) && c.covered > 0
    requires RoundsFrom(history, 0) == [Round(0, 1), Round(1, 2), Round(2, 3), Round(3, 4)]
    ensures RetryStep(history, Books(Some(c), 0)) ==
            Retried([history[0], history[2], history[3]], Books(Some(Advanced(c, [history[1]])), 0))
  {
    var shrunk := [history[0], history[2], history[3]];
    DropLeavesRemainder(history);
    assert Remainder(history) == shrunk;
    RetryIs(history, shrunk, c, 0);
    RebookedLookAlike(c, history, shrunk);
  }

  lemma ThirdCovered(history: seq<Message>, summary: string)
    requires |history| == 4 && UseIds(history[2].content) == []
    ensures var after := Advanced(Cache(2, Bytes(history[..2]), summary), [history[1]]);
            Aligned(history, after) <==> Bytes([history[1]]) == Bytes([history[2]])
  {
    BytesConcat(history[..2], [history[2]]);
    assert history[..3] == history[..2] + [history[2]];
  }

  lemma FourPaired(marked: string, a: string, b: string, d: string)
    ensures var all := [SummaryMessage(marked), TextMessage(RoleUser, a), TextMessage(RoleUser, b),
                        TextMessage(RoleUser, d)];
            Paired(all) && IsSummary(all[0]) && forall k :: 0 <= k < 4 ==> UseIds(all[k].content) == []
  {
    var s, x := SummaryMessage(marked), TextMessage(RoleUser, a);
    var y, z := TextMessage(RoleUser, b), TextMessage(RoleUser, d);
    SummaryIsPlain(marked);
    UserTextPlain(SUMMARY_PREFIX + marked);
    UserTextPlain(a);
    UserTextPlain(b);
    UserTextPlain(d);
    PlainBefore(z, [], [z]);
    PlainBefore(y, [z], [y, z]);
    PlainBefore(x, [y, z], [x, y, z]);
    PlainBefore(s, [x, y, z], [s, x, y, z]);
  }

  lemma FourRounds(all: seq<Message>)
    requires Paired(all) && |all| == 4 && forall k :: 0 <= k < 4 ==> UseIds(all[k].content) == []
    ensures RoundsFrom(all, 0) == [Round(0, 1), Round(1, 2), Round(2, 3), Round(3, 4)]
  {
    StrictRoundEnd(all, 0);
    StrictRoundEnd(all, 1);
    StrictRoundEnd(all, 2);
    assert RoundsFrom(all, 4) == [];
    assert RoundsFrom(all, 3) == [Round(3, 4)];
    assert RoundsFrom(all, 2) == [Round(2, 3)] + RoundsFrom(all, 3);
  }

  /** The size of a text message depends on its text alone. */
  lemma TextBytes(text: string)
    ensures Bytes([TextMessage(RoleUser, text)]) == Bytes([TextMessage(RoleUser, "")]) + ByteLen(text)
  {
    var m, n := TextMessage(RoleUser, text), TextMessage(RoleUser, "");
    assert [m][..0] == [] && [n][..0] == [] && m.content[..0] == [] && n.content[..0] == [];
  }

  // ---- Without a cache -----------------------------------------------------------------------

  /** The view the loop rebuilds next time starts with the view sent now. */
  predicate Carried(all: seq<Message>, view: seq<Message>, dropped: int) {
    0 <= dropped < |all| && view == all[dropped..]
  }

  lemma CarriedRebuilds(all: seq<Message>, view: seq<Message>, dropped: int, produced: seq<Message>)
    requires Carried(all, view, dropped)
    ensures Rebuilt(all + produced, dropped) == view + produced
  {
  }

  /** A leading summary survives a drop, but the count only describes a dropped prefix. */
  predicate DropsBehindHead(view: seq<Message>) {
    RoundCount(view) > 2 && IsSummary(view[0]) && view[RoundsFrom(view, 0)[1].end - 1] != view[0]
  }

  lemma CarriedBehindHead(all: seq<Message>, view: seq<Message>, dropped: int, end: nat)
    requires Carried(all, view, dropped) && 1 < end < |view|
    ensures Carried(all, [view[0]] + view[end..], dropped + end - 1) <==> view[end - 1] == view[0]
  {
    var tail, rest := all[dropped + end - 1..], [view[0]] + view[end..];
    assert tail == [view[end - 1]] + view[end..];
    assert tail[0] == view[end - 1] && rest[0] == view[0];
  }

  /** Main result without a cache: after a retry the next rebuilt view is the view sent plus
      what was produced since, exactly unless the drop happened behind a leading summary. */
  lemma RetryCarried(all: seq<Message>, view: seq<Message>, dropped: int)
    requires Paired(view) && Carried(all, view, dropped) && RoundCount(view) > 1
    ensures var r := RetryStep(view, Books(None, dropped));
            r.Retried? && r.books.cache.None? && Paired(r.view) &&
            (Carried(all, r.view, r.books.viewDropped) <==> !DropsBehindHead(view))
  {
    DropLeavesRemainder(view);
    RetryCounts(view, Remainder(view), dropped);
    RemainderCarried(all, view, dropped);
  }

  lemma RetryCounts(view: seq<Message>, shrunk: seq<Message>, dropped: int)
    requires DropForOverflow(view) == Dropped(shrunk)
    ensures RetryStep(view, Books(None, dropped)) == Retried(shrunk, Books(None, dropped + |view| - |shrunk|))
  {
  }

  /** The smallest case behind a leading summary: the dropped round was the second message,
      the count says the first. */
  lemma DroppedBehindHead(summary: string, first: string, second: string)
    requires TextMessage(RoleUser, first) != SummaryMessage(summary)
    ensures var all := [SummaryMessage(summary), TextMessage(RoleUser, first), TextMessage(RoleUser, second)];
            var r := RetryStep(all, Books(None, 0));
            Paired(all) && r.Retried? && r.view == [all[0], all[2]] &&
            Rebuilt(all, r.books.viewDropped) == [all[1], all[2]]
  {
    var all := [SummaryMessage(summary), TextMessage(RoleUser, first), TextMessage(RoleUser, second)];
    ThreePaired(summary, first, second);
    PlainRounds(all);
    DropLeavesRemainder(all);
    assert Remainder(all) == [all[0], all[2]];
  }

  lemma PlainBefore(m: Message, rest: seq<Message>, all: seq<Message>)
    requires Plain(m) && RoleClean([m]) && Paired(rest) && all == [m] + rest
    ensures Paired(all)
  {
    PlainFirst(m, rest);
  }

  lemma ThreePaired(summary: string, first: string, second: string)
    ensures var all := [SummaryMessage(summary), TextMessage(RoleUser, first), TextMessage(RoleUser, second)];
            Paired(all) && IsSummary(all[0]) && UseIds(all[0].content) == [] && UseIds(all[1].content) == []
  {
    var s, a, b := SummaryMessage(summary), TextMessage(RoleUser, first), TextMessage(RoleUser, second);
    SummaryIsPlain(summary);
    UserTextPlain(SUMMARY_PREFIX + summary);
    UserTextPlain(first);
    UserTextPlain(second);
    PlainBefore(b, [], [b]);
    PlainBefore(a, [b], [a, b]);
    PlainBefore(s, [a, b], [s, a, b]);
  }

  lemma PlainRounds(all: seq<Message>)
    requires Paired(all) && |all| == 3 && UseIds(all[0].content) == [] && UseIds(all[1].content) == []
    ensures RoundsFrom(all, 0) == [Round(0, 1), Round(1, 2), Round(2, 3)]
  {
    StrictRoundEnd(all, 0);
    StrictRoundEnd(all, 1);
    assert RoundsFrom(all, 3) == [];
    assert RoundsFrom(all, 2) == [Round(2, 3)];
  }

  lemma CarriedCut(all: seq<Message>, view: seq<Message>, dropped: int, end: nat)
    requires Carried(all, view, dropped) && end < |view|
    ensures Carried(all, view[end..], dropped + end)
  {
    assert view[end..] == all[dropped + end..];
  }

  lemma RemainderCarried(all: seq<Message>, view: seq<Message>, dropped: int)
    requires Paired(view) && Carried(all, view, dropped) && RoundCount(view) > 1
    ensures Carried(all, Remainder(view), dropped + |view| - |Remainder(view)|) <==> !DropsBehindHead(view)
  {
    RoundCountIs(view);
    var rounds := RoundsFrom(view, 0);
    if IsSummary(view[0]) && RoundCount(view) > 2 {
      SummaryHead(view);
      SecondRound(view);
      CarriedBehindHead(all, view, dropped, rounds[1].end);
    } else {
      CarriedCut(all, view, dropped, rounds[0].end);
    }
  }

  // ---- Whole calls and whole runs ---------------------------------------------------------------

  /** The k-th retry of a call leaves the cache alone or keeps it in step. */
  ghost predicate RetryKept(history: seq<Message>, trail: seq<Outgoing>, k: nat)
    requires k + 1 < |trail|
  {
    trail[k].books.cache.Some? && trail[k + 1].books.cache.Some? &&
    KeepsBooks(history, trail[k + 1].view, trail[k].books.cache.value, trail[k + 1].books.cache.value)
  }

  ghost predicate RetryMistaken(history: seq<Message>, trail: seq<Outgoing>, k: nat)
    requires k + 1 < |trail|
  {
    trail[k].books.cache.Some? && MistakesHead(history, trail[k].view, trail[k].books.cache.value)
  }

  /** The verdicts on the retries of a call, by number. */
  ghost function Kept(history: seq<Message>, trail: seq<Outgoing>): nat -> bool {
    (k: nat) => k + 1 < |trail| && RetryKept(history, trail, k)
  }

  ghost function Mistaken(history: seq<Message>, trail: seq<Outgoing>): nat -> bool {
    (k: nat) => k + 1 < |trail| && RetryMistaken(history, trail, k)
  }

  ghost function StandsAt(history: seq<Message>, trail: seq<Outgoing>): nat -> bool {
    (k: nat) => k < |trail| && Stands(history, trail[k])
  }

  /** It holds of the first n. */
  ghost predicate All(p: nat -> bool, n: nat) {
    forall k: nat :: k < n ==> p(k)
  }

  ghost predicate Never(p: nat -> bool, n: nat) {
    forall k: nat :: k < n ==> !p(k)
  }

  ghost predicate Stands(history: seq<Message>, s: Outgoing) {
    s.books.cache.Some? && Standing(history, s.view, s.books.cache.value)
  }

  /** One retry from where a call may stand. */
  lemma RetryStands(history: seq<Message>, trail: seq<Outgoing>, k: nat)
    requires Paired(history) && Trail(trail) && k + 1 < |trail| && Stands(history, trail[k])
    ensures RetryKept(history, trail, k) <==> !RetryMistaken(history, trail, k)
    ensures RetryKept(history, trail, k) ==> Stands(history, trail[k + 1])
  {
    var s, s' := trail[k], trail[k + 1];
    assert Retries(trail, k);
    assert s.books == Books(Some(s.books.cache.value), s.books.viewDropped);
    DropLeavesRemainder(s.view);
    assert RoundCount(s.view) > 1;
    RetryInStep(history, s.view, s.books.cache.value, s.books.viewDropped);
  }

  ghost predicate AgreeAt(kept: nat -> bool, mistaken: nat -> bool, stands: nat -> bool, k: nat) {
    stands(k) ==> (kept(k) <==> !mistaken(k)) && (kept(k) ==> stands(k + 1))
  }

  /** Two verdicts that coincide wherever one stands, and that keep one standing, coincide
      throughout. */
  lemma {:induction false} Coincide(kept: nat -> bool, mistaken: nat -> bool, stands: nat -> bool, n: nat)
    requires stands(0)
    requires forall k: nat :: k < n ==> AgreeAt(kept, mistaken, stands, k)
    ensures All(kept, n) <==> Never(mistaken, n)
    ensures All(kept, n) ==> stands(n)
  {
    if n > 0 {
      Coincide(kept, mistaken, stands, n - 1);
      assert AgreeAt(kept, mistaken, stands, n - 1);
      assert All(kept, n) <==> All(kept, n - 1) && kept(n - 1);
      assert Never(mistaken, n) <==> Never(mistaken, n - 1) && !mistaken(n - 1);
    }
  }

  lemma RetryAt(history: seq<Message>, trail: seq<Outgoing>, k: nat)
    requires Paired(history) && Trail(trail) && k + 1 < |trail|
    ensures AgreeAt(Kept(history, trail), Mistaken(history, trail), StandsAt(history, trail), k)
  {
    if Stands(history, trail[k]) {
      RetryStands(history, trail, k);
    }
  }

  /** Main result for one call: its retries keep the books exactly when none of them takes a
      user's message for the summary, and then every view stands as the first one did. */
  lemma TrailStands(history: seq<Message>, trail: seq<Outgoing>, n: nat)
    requires Paired(history) && Trail(trail) && n < |trail| && StandsAt(history, trail)(0)
    ensures All(Kept(history, trail), n) <==> Never(Mistaken(history, trail), n)
    ensures All(Kept(history, trail), n) ==> StandsAt(history, trail)(n)
  {
    forall k: nat | k < n ensures AgreeAt(Kept(history, trail), Mistaken(history, trail), StandsAt(history, trail), k) {
      RetryAt(history, trail, k);
    }
    Coincide(Kept(history, trail), Mistaken(history, trail), StandsAt(history, trail), n);
  }

  /** The view handed to the overflow fallback: compressed, or untouched when the summarizer
      failed. */
  function FirstView(history: seq<Message>, call: CompressCall, c: Cache): seq<Message>
    requires call.policy.keepRecent >= 1
  {
    match CompressStep(history, call.policy, call.summarize, c).reply
    case Sent(view) => view
    case SummarizeFailed => history
  }

  /** What compression hands on; a tripped breaker hands on the history. */
  ghost predicate Handed(history: seq<Message>, call: CompressCall, c: Cache, first: Outgoing)
    requires call.policy.keepRecent >= 1
  {
    var s := CompressStep(history, call.policy, call.summarize, c);
    (first.view == FirstView(history, call, c) && first.books.cache == Some(s.cache)) ||
    (first.view == history && first.books.cache == Some(c))
  }

  lemma HandedStands(history: seq<Message>, call: CompressCall, c: Cache, first: Outgoing)
    requires call.policy.keepRecent >= 1 && Paired(history) && Aligned(history, c) && Handed(history, call, c, first)
    ensures Stands(history, first) && (Led(history, first.view, first.books.cache.value) || first.view == history)
  {
    CallConsistent(history, call.policy, call.summarize, c);
    if Led(history, first.view, first.books.cache.value) {
      LedStands(history, first.view, first.books.cache.value);
    }
  }

  lemma FirstStands(history: seq<Message>, call: CompressCall, c: Cache, first: Outgoing)
    requires call.policy.keepRecent >= 1 && Paired(history) && Aligned(history, c) && Handed(history, call, c, first)
    ensures Stands(history, first)
  {
    HandedStands(history, call, c, first);
  }

  /** Main result for one iteration with compression: over compression and its retries the
      books are kept exactly when no retry is mistaken, and then the cache still describes a
      prefix of the history. */
  lemma IterationStands(history: seq<Message>, call: CompressCall, c: Cache, trail: seq<Outgoing>, n: nat)
    requires call.policy.keepRecent >= 1 && Paired(history) && Aligned(history, c)
    requires Trail(trail) && Handed(history, call, c, trail[0]) && n < |trail|
    ensures All(Kept(history, trail), n) <==> Never(Mistaken(history, trail), n)
    ensures All(Kept(history, trail), n) ==> StandsAt(history, trail)(n)
  {
    FirstStands(history, call, c, trail[0]);
    TrailStands(history, trail, n);
  }

  /** A run of iterations: `trails[n]` are the views of iteration n, and `caches[n]` is the
      cache it starts with. */
  ghost predicate Iterations(calls: seq<CompressCall>, caches: seq<Cache>, trails: seq<seq<Outgoing>>) {
    && Run(calls) && |trails| == |calls| && |caches| == |calls| + 1 && caches[0] == NO_CACHE
    && (forall n :: 0 <= n < |calls| ==> IterationAt(calls, caches, trails, n))
  }

  ghost predicate IterationAt(calls: seq<CompressCall>, caches: seq<Cache>, trails: seq<seq<Outgoing>>, n: nat)
    requires Callable(calls) && n < |calls| == |trails| && |caches| == |calls| + 1
  {
    var history, trail := HistoryAfter(calls, n + 1), trails[n];
    && Trail(trail) && Handed(history, calls[n], caches[n], trail[0])
    && trail[|trail| - 1].books.cache == Some(caches[n + 1])
  }

  ghost predicate IterationKept(calls: seq<CompressCall>, trails: seq<seq<Outgoing>>, n: nat)
    requires n < |calls| == |trails|
  {
    trails[n] != [] && All(Kept(HistoryAfter(calls, n + 1), trails[n]), |trails[n]| - 1)
  }

  ghost predicate IterationClean(calls: seq<CompressCall>, trails: seq<seq<Outgoing>>, n: nat)
    requires n < |calls| == |trails|
  {
    trails[n] != [] && Never(Mistaken(HistoryAfter(calls, n + 1), trails[n]), |trails[n]| - 1)
  }

  /** One iteration more: the books are kept exactly when it is clean. */
  lemma IterationNext(calls: seq<CompressCall>, caches: seq<Cache>, trails: seq<seq<Outgoing>>, n: nat)
    requires Iterations(calls, caches, trails) && n < |calls| && Aligned(HistoryAfter(calls, n), caches[n])
    ensures IterationKept(calls, trails, n) <==> IterationClean(calls, trails, n)
    ensures IterationKept(calls, trails, n) ==> Aligned(HistoryAfter(calls, n + 1), caches[n + 1])
  {
    IterationAligned(calls, caches, n);
    IterationFacts(calls, caches, trails, n);
    TrailStands(HistoryAfter(calls, n + 1), trails[n], |trails[n]| - 1);
  }

  lemma IterationFacts(calls: seq<CompressCall>, caches: seq<Cache>, trails: seq<seq<Outgoing>>, n: nat)
    requires Iterations(calls, caches, trails) && n < |calls|
    requires Paired(HistoryAfter(calls, n + 1)) && Aligned(HistoryAfter(calls, n + 1), caches[n])
    ensures var trail := trails[n];
            Trail(trail) && StandsAt(HistoryAfter(calls, n + 1), trail)(0) &&
            trail[|trail| - 1].books.cache == Some(caches[n + 1])
  {
    assert IterationAt(calls, caches, trails, n);
    FirstStands(HistoryAfter(calls, n + 1), calls[n], caches[n], trails[n][0]);
  }

  lemma IterationAligned(calls: seq<CompressCall>, caches: seq<Cache>, n: nat)
    requires Run(calls) && n < |calls| < |caches| && Aligned(HistoryAfter(calls, n), caches[n])
    ensures Paired(HistoryAfter(calls, n + 1)) && Aligned(HistoryAfter(calls, n + 1), caches[n])
  {
    assert Paired(HistoryAfter(calls, n + 1));
    AlignedGrows(HistoryAfter(calls, n), calls[n].appended, caches[n]);
  }

  ghost function AlignedAt(calls: seq<CompressCall>, caches: seq<Cache>): nat -> bool {
    (n: nat) => n <= |calls| && n < |caches| && Aligned(HistoryAfter(calls, n), caches[n])
  }

  /** Main result over whole runs: compression and overflow retries together never let the
      cache drift from the history, as long as no retry takes a user's message for the
      summary. */
  lemma IterationsStayAligned(calls: seq<CompressCall>, caches: seq<Cache>, trails: seq<seq<Outgoing>>, n: nat)
    requires Iterations(calls, caches, trails) && n <= |calls|
    requires forall m :: 0 <= m < n ==> IterationClean(calls, trails, m) || IterationKept(calls, trails, m)
    ensures Aligned(HistoryAfter(calls, n), caches[n])
  {
    var aligned := AlignedAt(calls, caches);
    forall m: nat | m < n ensures Next(aligned, m) {
      AlignedNext(calls, caches, trails, m);
    }
    AlignedFirst(calls, caches, trails);
    Persists(aligned, n, n);
  }

  lemma AlignedFirst(calls: seq<CompressCall>, caches: seq<Cache>, trails: seq<seq<Outgoing>>)
    requires Iterations(calls, caches, trails)
    ensures AlignedAt(calls, caches)(0)
  {
  }

  lemma AlignedNext(calls: seq<CompressCall>, caches: seq<Cache>, trails: seq<seq<Outgoing>>, n: nat)
    requires Iterations(calls, caches, trails) && n < |calls|
    requires IterationClean(calls, trails, n) || IterationKept(calls, trails, n)
    ensures Next(AlignedAt(calls, caches), n)
  {
    if AlignedAt(calls, caches)(n) {
      CleanKeepsAligned(calls, caches, trails, n);
    }
  }

  lemma CleanKeepsAligned(calls: seq<CompressCall>, caches: seq<Cache>, trails: seq<seq<Outgoing>>, n: nat)
    requires Iterations(calls, caches, trails) && n < |calls| && Aligned(HistoryAfter(calls, n), caches[n])
    requires IterationClean(calls, trails, n) || IterationKept(calls, trails, n)
    ensures Aligned(HistoryAfter(calls, n + 1), caches[n + 1])
  {
    IterationNext(calls, caches, trails, n);
  }

  /** Main result over whole runs, both ways: every retry of the run keeps the books exactly
      when none takes a user's message for the summary. */
  lemma RunKeepsBooks(calls: seq<CompressCall>, caches: seq<Cache>, trails: seq<seq<Outgoing>>)
    requires Iterations(calls, caches, trails)
    ensures (forall n :: 0 <= n < |calls| ==> IterationKept(calls, trails, n)) <==>
            (forall n :: 0 <= n < |calls| ==> IterationClean(calls, trails, n))
  {
    if forall n :: 0 <= n < |calls| ==> IterationKept(calls, trails, n) {
      forall n | 0 <= n < |calls| ensures IterationClean(calls, trails, n) {
        IterationsStayAligned(calls, caches, trails, n);
        IterationNext(calls, caches, trails, n);
      }
    }
    if forall n :: 0 <= n < |calls| ==> IterationClean(calls, trails, n) {
      forall n | 0 <= n < |calls| ensures IterationKept(calls, trails, n) {
        IterationsStayAligned(calls, caches, trails, n);
        IterationNext(calls, caches, trails, n);
      }
    }
  }

  // ---- Histories without look-alikes -----------------------------------------------------------

  /** No message of the list looks like a compression summary. */
  predicate NoSummaries(msgs: seq<Message>) {
    forall i :: 0 <= i < |msgs| ==> !IsSummary(msgs[i])
  }

  /** The view is led by the cached summary, or shows none. */
  ghost predicate Clear(history: seq<Message>, s: Outgoing) {
    Stands(history, s) && (Led(history, s.view, s.books.cache.value) || NoSummaries(s.view))
  }

  lemma ClearRetry(history: seq<Message>, trail: seq<Outgoing>, k: nat)
    requires Paired(history) && NoSummaries(history) && Trail(trail) && k + 1 < |trail| && Clear(history, trail[k])
    ensures !RetryMistaken(history, trail, k) && Clear(history, trail[k + 1])
  {
    ClearNotMistaken(history, trail[k]);
    RetryStands(history, trail, k);
    ClearAfter(history, trail[k], trail[k + 1]) by {
      assert Retries(trail, k);
    }
  }

  lemma ClearNotMistaken(history: seq<Message>, s: Outgoing)
    requires Paired(history) && NoSummaries(history) && Clear(history, s)
    ensures !MistakesHead(history, s.view, s.books.cache.value)
  {
    var c := s.books.cache.value;
    RoundCountIs(s.view);
    if Led(history, s.view, c) {
      assert LooksLed(history, s.view, c);
      assert |s.view| > 1 ==> s.view[1] == history[c.covered];
    }
  }

  lemma ClearAfter(history: seq<Message>, s: Outgoing, s': Outgoing)
    requires Paired(history) && NoSummaries(history) && Clear(history, s) && Stands(history, s')
    requires RetryStep(s.view, s.books) == Retried(s'.view, s'.books)
    requires KeepsBooks(history, s'.view, s.books.cache.value, s'.books.cache.value)
    ensures Clear(history, s')
  {
    var c := s.books.cache.value;
    assert s.books == Books(Some(c), s.books.viewDropped);
    DropLeavesRemainder(s.view);
    assert RoundCount(s.view) > 1;
    RetryInStep(history, s.view, c, s.books.viewDropped);
    ClearRemainder(history, s.view, c);
  }

  lemma ClearRemainder(history: seq<Message>, view: seq<Message>, c: Cache)
    requires Paired(history) && NoSummaries(history) && Standing(history, view, c) && RoundCount(view) > 1
    requires Led(history, view, c) || NoSummaries(view)
    ensures NoSummaries(Remainder(view)) || (Led(history, view, c) && RoundCount(view) > 2)
    ensures Led(history, view, c) && RoundCount(view) <= 2 ==> Rebooked(c, view, Remainder(view)) == NO_CACHE
    ensures Led(history, view, c) && RoundCount(view) > 2 ==> Rebooked(c, view, Remainder(view)) != NO_CACHE
  {
    RoundCountIs(view);
    SummaryIsPlain(c.summary);
    if Led(history, view, c) {
      SummaryHead(view);
      SecondRound(view);
      assert RoundCount(view) == 2 ==> Remainder(view) == view[1..] == history[c.covered..];
    } else {
      assert Remainder(view) == view[RoundEnd(view, 0)..];
    }
  }

  ghost function ClearAt(history: seq<Message>, trail: seq<Outgoing>): nat -> bool {
    (k: nat) => k < |trail| && Clear(history, trail[k])
  }

  ghost predicate Next(p: nat -> bool, k: nat) { p(k) ==> p(k + 1) }

  lemma {:induction false} Persists(p: nat -> bool, n: nat, k: nat)
    requires p(0) && k <= n && forall j: nat :: j < n ==> Next(p, j)
    ensures p(k)
  {
    if k > 0 {
      Persists(p, n, k - 1);
      assert Next(p, k - 1);
    }
  }

  lemma ClearNext(history: seq<Message>, trail: seq<Outgoing>, k: nat)
    requires Paired(history) && NoSummaries(history) && Trail(trail) && k + 1 < |trail|
    ensures Next(ClearAt(history, trail), k)
    ensures ClearAt(history, trail)(k) ==> !Mistaken(history, trail)(k)
  {
    if Clear(history, trail[k]) {
      ClearRetry(history, trail, k);
    }
  }

  /** In a history where no message looks like a summary no retry is ever mistaken. */
  lemma PlainHistoryClean(history: seq<Message>, trail: seq<Outgoing>, n: nat)
    requires Paired(history) && NoSummaries(history) && Trail(trail) && n < |trail| && ClearAt(history, trail)(0)
    ensures Never(Mistaken(history, trail), n)
  {
    forall k: nat | k < n ensures Next(ClearAt(history, trail), k) {
      ClearNext(history, trail, k);
    }
    forall k: nat | k < n ensures !Mistaken(history, trail)(k) {
      Persists(ClearAt(history, trail), n, k);
      ClearNext(history, trail, k);
    }
  }

  // ---- Whole calls without a cache --------------------------------------------------------------

  ghost predicate CarriedAt(all: seq<Message>, s: Outgoing) {
    s.books.cache.None? && Paired(s.view) && Carried(all, s.view, s.books.viewDropped)
  }

  /** Main result without compression, over a whole call: what is rebuilt next is what was
      sent last, at every retry, exactly when no drop happens behind a leading look-alike. */
  lemma {:induction false} TrailCarried(all: seq<Message>, trail: seq<Outgoing>, n: nat)
    requires Trail(trail) && n < |trail| && CarriedAt(all, trail[0])
    ensures (forall k :: 0 <= k <= n ==> CarriedAt(all, trail[k])) <==>
            (forall k :: 0 <= k < n ==> !DropsBehindHead(trail[k].view))
  {
    if n > 0 {
      TrailCarried(all, trail, n - 1);
      if CarriedAt(all, trail[n - 1]) {
        CarriedRetry(all, trail, n - 1);
      }
    }
  }

  lemma CarriedRetry(all: seq<Message>, trail: seq<Outgoing>, k: nat)
    requires Trail(trail) && k + 1 < |trail| && CarriedAt(all, trail[k])
    ensures CarriedAt(all, trail[k + 1]) <==> !DropsBehindHead(trail[k].view)
  {
    var s := trail[k];
    assert Retries(trail, k);
    assert s.books == Books(None, s.books.viewDropped);
    DropLeavesRemainder(s.view);
    assert RoundCount(s.view) > 1;
    RetryCarried(all, s.view, s.books.viewDropped);
  }
}
