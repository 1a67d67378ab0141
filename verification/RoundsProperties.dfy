/** Rounds are the units a strictly paired list can be cut into, and dropping a round from
    such a list drops nothing else (internal/contextmgmt/rounds.go). */
module RoundsProperties {
  import opened Provider
  import opened Pairing
  import opened PairingSpec
  import opened PairingProperties
  import opened Rounds

  // ---- Any list ----------------------------------------------------------------------

  /** The rounds cover messages i, i+1, ... without gap or overlap. */
  ghost predicate Partition(rounds: seq<Round>, i: nat, n: nat) {
    && (forall k :: 0 <= k < |rounds| ==> rounds[k].start < rounds[k].end)
    && (forall k :: 0 < k < |rounds| ==> rounds[k].start == rounds[k - 1].end)
    && (if rounds == [] then i == n else rounds[0].start == i && rounds[|rounds| - 1].end == n)
  }

  lemma {:induction false} RoundsPartition(msgs: seq<Message>, i: nat)
    requires i <= |msgs|
    ensures Partition(RoundsFrom(msgs, i), i, |msgs|)
    decreases |msgs| - i
  {
    if i < |msgs| {
      RoundsPartition(msgs, RoundEnd(msgs, i));
    }
  }

  ghost predicate IsBoundary(msgs: seq<Message>, k: nat) {
    k == |msgs| || exists r :: r in RoundsFrom(msgs, 0) && r.start == k
  }

  // ---- Strictly paired lists ------------------------------------------------------------

  /** Every call id is non-empty (toolUseIDs ignores empty ids). */
  ghost predicate NamedCalls(msgs: seq<Message>) {
    forall i, id :: 0 <= i < |msgs| && id in UseIds(msgs[i].content) ==> id != ""
  }

  /** A well-formed history: what the provider accepts. */
  ghost predicate Paired(msgs: seq<Message>) {
    RoleClean(msgs) && NamedCalls(msgs) && Strict(msgs)
  }

  /** Position k does not separate a call from its answer. */
  predicate CutSafe(msgs: seq<Message>, k: nat)
    requires k <= |msgs|
  {
    k == 0 || UseIds(msgs[k - 1].content) == []
  }

  lemma {:induction false} AllAnswered(content: seq<Block>, want: set<string>)
    requires forall id :: id in ResultIds(content) ==> id in want
    ensures CountAnswered(content, want) == |ResultIds(content)|
  {
    if content != [] {
      AllAnswered(content[..|content| - 1], want);
    }
  }

  lemma {:induction false} DistinctSize(ids: seq<string>)
    requires Distinct(ids)
    ensures |ToSet(ids)| == |ids|
  {
    if ids != [] {
      var init, x := ids[..|ids| - 1], ids[|ids| - 1];
      DistinctSize(init);
      assert ToSet(ids) == ToSet(init) + {x};
    }
  }

  lemma {:induction false} HasResult(content: seq<Block>) returns (k: nat)
    requires ResultIds(content) != []
    ensures k < |content| && content[k].ToolResult?
  {
    k := |content| - 1;
    if !content[k].ToolResult? {
      k := HasResult(content[..k]);
    }
  }

  /** A call and its answer make one round, every other message is a round by itself. */
  lemma StrictRoundEnd(msgs: seq<Message>, i: nat)
    requires Paired(msgs) && i < |msgs|
    ensures RoundEnd(msgs, i) == if UseIds(msgs[i].content) == [] then i + 1 else i + 2
  {
    var ids := UseIds(msgs[i].content);
    assert StrictAt(msgs, i);
    if ids == [] {
      assert ToolUseIds(msgs[i]) == {};
    } else {
      CallsOnlyByAssistant(msgs, i);
      AnswerFollows(msgs, i);
      assert ToolUseIds(msgs[i]) == ToSet(ids);
      UsesSplit(msgs, i);
      DistinctSize(ids);
      var _ := HasResult(msgs[i + 1].content);
      AllAnswered(msgs[i + 1].content, ToSet(ids));
      assert ScanEnd(msgs, i + 2, |ids|, ToSet(ids)) == i + 2;
      assert ScanEnd(msgs, i + 1, 0, ToSet(ids)) == ScanEnd(msgs, i + 2, |ids|, ToSet(ids));
    }
  }

  lemma CallsOnlyByAssistant(msgs: seq<Message>, i: nat)
    requires RoleClean(msgs) && i < |msgs| && UseIds(msgs[i].content) != []
    ensures IsAssistant(msgs[i])
  {
    if !IsAssistant(msgs[i]) {
      NoneOf(msgs[i].content);
    }
  }

  lemma AnswerFollows(msgs: seq<Message>, i: nat)
    requires Strict(msgs) && i < |msgs| && UseIds(msgs[i].content) != []
    ensures i + 1 < |msgs| && !IsAssistant(msgs[i + 1])
    ensures var results, ids := ResultIds(msgs[i + 1].content), UseIds(msgs[i].content);
            |results| == |ids| && forall id :: id in results <==> id in ids
  {
    assert StrictAt(msgs, i) && StrictAt(msgs, i + 1);
    SameMembers(ResultIds(msgs[i + 1].content), UseIds(msgs[i].content));
  }

  lemma SameMembers(a: seq<string>, b: seq<string>)
    requires multiset(a) == multiset(b)
    ensures |a| == |b| && forall id :: id in a <==> id in b
  {
    assert |multiset(a)| == |a| && |multiset(b)| == |b|;
    forall id ensures id in a <==> id in b {
      assert id in multiset(a) <==> id in a;
      assert id in multiset(b) <==> id in b;
    }
  }

  /** After an answered call the list can be cut again. */
  lemma AnswersAskNothing(msgs: seq<Message>, i: nat)
    requires Paired(msgs) && i < |msgs| && !IsAssistant(msgs[i])
    ensures UseIds(msgs[i].content) == []
  {
    NoneOf(msgs[i].content);
  }

  lemma {:induction false} StartsAreCutSafe(msgs: seq<Message>, i: nat, k: nat)
    requires Paired(msgs) && i <= k <= |msgs| && CutSafe(msgs, i)
    ensures CutSafe(msgs, k) <==> k == |msgs| || exists r :: r in RoundsFrom(msgs, i) && r.start == k
    decreases |msgs| - i
  {
    if i < |msgs| {
      var end := RoundEnd(msgs, i);
      StrictRoundEnd(msgs, i);
      assert StrictAt(msgs, i);
      if end == i + 2 {
        AnswersAskNothing(msgs, i + 1);
      }
      assert Round(i, end) in RoundsFrom(msgs, i);
      RoundsPartition(msgs, end);
      StartsFrom(msgs, end);
      if k >= end {
        StartsAreCutSafe(msgs, end, k);
      }
    }
  }

  lemma {:induction false} StartsFrom(msgs: seq<Message>, i: nat)
    requires i <= |msgs|
    ensures forall r :: r in RoundsFrom(msgs, i) ==> i <= r.start < r.end
    decreases |msgs| - i
  {
    if i < |msgs| {
      StartsFrom(msgs, RoundEnd(msgs, i));
    }
  }

  // ---- Cutting -------------------------------------------------------------------------------

  lemma {:induction false} AllUsesConcat(a: seq<Message>, b: seq<Message>)
    ensures AllUses(a + b) == AllUses(a) + AllUses(b)
  {
    if b == [] {
      assert a + b == a;
    } else {
      AllUsesConcat(a, b[..|b| - 1]);
      assert (a + b)[..|a + b| - 1] == a + b[..|b| - 1];
    }
  }

  lemma DistinctParts(a: seq<string>, b: seq<string>)
    requires Distinct(a + b)
    ensures Distinct(a) && Distinct(b)
  {
    assert forall i :: 0 <= i < |a| ==> (a + b)[i] == a[i];
    assert forall i :: 0 <= i < |b| ==> (a + b)[|a| + i] == b[i];
  }

  /** Both parts of a safe cut are well-formed. */
  lemma SafeCut(msgs: seq<Message>, k: nat)
    requires Paired(msgs) && k <= |msgs| && CutSafe(msgs, k)
    ensures Paired(msgs[..k]) && Paired(msgs[k..])
  {
    assert msgs == msgs[..k] + msgs[k..];
    AllUsesConcat(msgs[..k], msgs[k..]);
    DistinctParts(AllUses(msgs[..k]), AllUses(msgs[k..]));
    forall i | 0 <= i < k ensures StrictAt(msgs[..k], i) {
      FrontStrict(msgs, k, i);
    }
    forall i | 0 <= i < |msgs| - k ensures StrictAt(msgs[k..], i) {
      BackStrict(msgs, k, i);
    }
  }

  lemma FrontStrict(msgs: seq<Message>, k: nat, i: nat)
    requires i < k <= |msgs| && CutSafe(msgs, k) && StrictAt(msgs, i)
    ensures StrictAt(msgs[..k], i)
  {
  }

  lemma BackStrict(msgs: seq<Message>, k: nat, i: nat)
    requires k <= |msgs| && i < |msgs| - k && CutSafe(msgs, k) && StrictAt(msgs, k + i)
    ensures StrictAt(msgs[k..], i)
  {
  }

  /** Main result: the round boundaries are exactly the places where a well-formed list
      can be cut into two well-formed lists. */
  lemma BoundariesAreCuts(msgs: seq<Message>, k: nat)
    requires Paired(msgs) && k <= |msgs|
    ensures IsBoundary(msgs, k) <==> Strict(msgs[..k]) && Strict(msgs[k..])
  {
    StartsAreCutSafe(msgs, 0, k);
    assert k > 0 && Strict(msgs[..k]) ==> StrictAt(msgs[..k], k - 1);
    if CutSafe(msgs, k) {
      SafeCut(msgs, k);
    }
  }

  // ---- Dropping -----------------------------------------------------------------------------

  /** A message outside any tool exchange. */
  predicate Plain(m: Message) {
    !IsAssistant(m) && m.content != [] && UseIds(m.content) == [] && ResultIds(m.content) == []
  }

  lemma SummaryIsPlain(summary: string)
    ensures Plain(SummaryMessage(summary)) && IsSummary(SummaryMessage(summary))
  {
    NoneOf(SummaryMessage(summary).content);
  }

  lemma PlainFirst(m: Message, rest: seq<Message>)
    requires Plain(m) && RoleClean([m]) && Paired(rest)
    ensures Paired([m] + rest)
  {
    var msgs := [m] + rest;
    AllUsesConcat([m], rest);
    assert AllUses([m]) == [];
    forall i | 0 <= i < |msgs| ensures StrictAt(msgs, i) {
      assert i > 0 ==> StrictAt(rest, i - 1);
    }
    assert forall i :: 0 <= i < |msgs| ==> msgs[i] == if i == 0 then m else rest[i - 1];
  }

  /** The parts of a drop: everything before `from` except the kept head is gone. */
  lemma DropFront(msgs: seq<Message>)
    requires Paired(msgs) && msgs != []
    ensures var end := RoundEnd(msgs, 0);
            CutSafe(msgs, end) && Paired(msgs[end..]) && Repair(msgs[end..]) == msgs[end..]
  {
    CutAfterRound(msgs, 0);
    SafeCut(msgs, RoundEnd(msgs, 0));
    StrictUntouched(msgs[RoundEnd(msgs, 0)..]);
  }

  lemma CutAfterRound(msgs: seq<Message>, i: nat)
    requires Paired(msgs) && i < |msgs|
    ensures CutSafe(msgs, RoundEnd(msgs, i))
  {
    StrictRoundEnd(msgs, i);
    assert StrictAt(msgs, i);
    if UseIds(msgs[i].content) != [] {
      AnswersAskNothing(msgs, i + 1);
    }
  }

  lemma SummaryHead(msgs: seq<Message>)
    requires Paired(msgs) && msgs != [] && IsSummary(msgs[0])
    ensures Plain(msgs[0]) && RoleClean([msgs[0]]) && RoundEnd(msgs, 0) == 1
  {
    assert StrictAt(msgs, 0);
    AnswersAskNothing(msgs, 0);
    SameMembers(ResultIds(msgs[0].content), AskedBefore(msgs, 0));
  }

  /** Dropping the second round keeps the first message and cuts at the second boundary. */
  lemma DropSecond(msgs: seq<Message>)
    requires Paired(msgs) && |msgs| > 1 && IsSummary(msgs[0])
    ensures var end := RoundEnd(msgs, 1); var rest := [msgs[0]] + msgs[end..];
            CutSafe(msgs, end) && Paired(rest) && Repair(rest) == rest
  {
    SummaryHead(msgs);
    CutAfterRound(msgs, 1);
    SafeCut(msgs, RoundEnd(msgs, 1));
    PlainFirst(msgs[0], msgs[RoundEnd(msgs, 1)..]);
    StrictUntouched([msgs[0]] + msgs[RoundEnd(msgs, 1)..]);
  }
}
