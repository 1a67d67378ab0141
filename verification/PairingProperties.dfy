/** What the pairing repair guarantees (internal/contextmgmt/pairing.go:7-89): the normal
    form it establishes, what it keeps, the lists it leaves alone, and when repairing once
    is enough. */
module PairingProperties {
  import opened Provider
  import opened Pairing
  import opened PairingSpec
  import opened PairingTurns

  // ---- The turns of a repaired list ---------------------------------------------------

  function Turns(msgs: seq<Message>): seq<Turn> {
    seq(|msgs|, i requires 0 <= i < |msgs| => Turn(Cleaned(msgs, i), Abandoned(msgs, i)))
  }

  lemma RepairIsOut(msgs: seq<Message>)
    ensures Repair(msgs) == Out(Turns(msgs))
  {
    assert Pieces(msgs) == Parts(Turns(msgs));
  }

  lemma CleanedIds(msgs: seq<Message>, i: nat)
    requires RoleClean(msgs) && i < |msgs|
    ensures Cleaned(msgs, i).content != []
    ensures IsAssistant(msgs[i]) ==>
      UseIds(Cleaned(msgs, i).content) == Asked(msgs, i) && ResultIds(Cleaned(msgs, i).content) == []
    ensures !IsAssistant(msgs[i]) ==>
      UseIds(Cleaned(msgs, i).content) == [] &&
      ResultIds(Cleaned(msgs, i).content) == ResultIds(AnswersTo(msgs[i].content, Due(msgs, i)))
  {
    var c := Cleaned(msgs, i).content;
    NoneOf(c);
    forall k | 0 <= k < |c|
      ensures IsAssistant(msgs[i]) ==> !c[k].ToolResult?
      ensures !IsAssistant(msgs[i]) ==> !c[k].ToolUse?
    {
      CleanedBlocks(msgs, i, k);
    }
  }

  lemma CleanedBlocks(msgs: seq<Message>, i: nat, k: nat)
    requires RoleClean(msgs) && i < |msgs| && k < |Cleaned(msgs, i).content|
    ensures IsAssistant(msgs[i]) ==> !Cleaned(msgs, i).content[k].ToolResult?
    ensures !IsAssistant(msgs[i]) ==> !Cleaned(msgs, i).content[k].ToolUse?
  {
    var b := Cleaned(msgs, i).content[k];
    FreshBlocks(msgs[i].content, SeenIn(msgs[..i]));
    AnswerBlocks(msgs[i].content, Due(msgs, i));
    assert b in Cleaned(msgs, i).content;
    assert b == Text(ORPHAN_REMOVED, false) || b in msgs[i].content;
  }

  lemma {:induction false} FreshBlocks(content: seq<Block>, seen: set<string>)
    ensures forall b :: b in FreshUses(content, seen) ==> b in content
  {
    if content != [] {
      FreshBlocks(content[..|content| - 1], seen);
    }
  }

  lemma {:induction false} AnswerBlocks(content: seq<Block>, asked: seq<string>)
    ensures forall b :: b in AnswersTo(content, asked) ==> b in content
  {
    if content != [] {
      AnswerBlocks(content[..|content| - 1], asked);
    }
  }

  lemma AskedFresh(msgs: seq<Message>, i: nat)
    requires i < |msgs|
    ensures Distinct(Asked(msgs, i))
    ensures forall id :: id in Asked(msgs, i) ==> id !in SeenIn(msgs[..i]) && id in SeenIn(msgs[..i + 1])
    ensures SeenIn(msgs[..i]) <= SeenIn(msgs[..i + 1])
  {
    assert msgs[..i + 1][..i] == msgs[..i];
    FreshDistinct(msgs[i].content, SeenIn(msgs[..i]));
    FreshAreNew(msgs[i].content, SeenIn(msgs[..i]));
  }

  lemma TurnLinks(msgs: seq<Message>, i: nat)
    requires RoleClean(msgs) && i < |msgs|
    ensures Link(Turns(msgs), i)
  {
    CleanedIds(msgs, i);
    if !IsAssistant(msgs[i]) {
      DueToTurn(msgs, i);
      DueIsDistinct(msgs, i);
      AnswersSplit(msgs[i].content, Due(msgs, i));
    }
  }

  lemma DueIsDistinct(msgs: seq<Message>, i: nat)
    requires i < |msgs|
    ensures Distinct(Due(msgs, i))
  {
    if i > 0 {
      AskedFresh(msgs, i - 1);
    }
  }

  /** Turns that only ask what was not seen before, and whose questions are seen after. */
  lemma {:induction false} FreshTurns(turns: seq<Turn>, seens: seq<set<string>>, n: nat)
    requires n <= |turns| && |seens| == |turns| + 1
    requires forall i :: 0 <= i < |turns| ==> AsksFresh(turns[i], seens[i], seens[i + 1])
    ensures Distinct(AskedUpTo(turns, n)) && forall id :: id in AskedUpTo(turns, n) ==> id in seens[n]
  {
    if n > 0 {
      FreshTurns(turns, seens, n - 1);
      assert AsksFresh(turns[n - 1], seens[n - 1], seens[n]);
      DistinctConcat(AskedUpTo(turns, n - 1), turns[n - 1].Asks(), seens[n - 1]);
    }
  }

  ghost predicate AsksFresh(t: Turn, before: set<string>, after: set<string>) {
    Distinct(t.Asks()) && before <= after && forall id :: id in t.Asks() ==> id !in before && id in after
  }

  /** The ids seen before each message, and after the last. */
  function SeenSets(msgs: seq<Message>): (seens: seq<set<string>>)
    ensures |seens| == |msgs| + 1
  {
    seq(|msgs| + 1, i requires 0 <= i <= |msgs| => SeenIn(msgs[..i]))
  }

  lemma TurnAsks(msgs: seq<Message>, i: nat)
    requires RoleClean(msgs) && i < |msgs|
    ensures AsksFresh(Turns(msgs)[i], SeenSets(msgs)[i], SeenSets(msgs)[i + 1])
  {
    AskedFresh(msgs, i);
    CleanedIds(msgs, i);
  }

  lemma AskedDistinct(msgs: seq<Message>)
    requires RoleClean(msgs)
    ensures Distinct(AskedUpTo(Turns(msgs), |msgs|))
  {
    forall i | 0 <= i < |msgs| ensures AsksFresh(Turns(msgs)[i], SeenSets(msgs)[i], SeenSets(msgs)[i + 1]) {
      TurnAsks(msgs, i);
    }
    FreshTurns(Turns(msgs), SeenSets(msgs), |msgs|);
  }

  lemma TurnsChain(msgs: seq<Message>)
    requires RoleClean(msgs)
    ensures Chain(Turns(msgs))
  {
    AskedDistinct(msgs);
    forall i | 0 <= i < |msgs| ensures Link(Turns(msgs), i) {
      TurnLinks(msgs, i);
    }
  }

  /** Main result: the repaired list is closed, whatever the input. */
  lemma RepairCloses(msgs: seq<Message>)
    requires RoleClean(msgs)
    ensures Closed(Repair(msgs))
  {
    RepairIsOut(msgs);
    TurnsChain(msgs);
    OutClosed(Turns(msgs));
  }

  /** In a closed list every call is answered exactly once, in its window. */
  lemma ClosedAnswersOnce(msgs: seq<Message>, i: nat, id: string)
    requires Closed(msgs) && i < |msgs| && id in UseIds(msgs[i].content)
    ensures id in ResultIds(Window(msgs, i + 1)) && multiset(AllResults(msgs))[id] == 1
  {
    AllUsesHas(msgs, i);
    DistinctCount(AllUses(msgs), id);
  }

  lemma {:induction false} AllUsesHas(msgs: seq<Message>, i: nat)
    requires i < |msgs|
    ensures forall id :: id in UseIds(msgs[i].content) ==> id in AllUses(msgs)
  {
    if i < |msgs| - 1 {
      AllUsesHas(msgs[..|msgs| - 1], i);
    }
  }

  // ---- What the repair keeps ------------------------------------------------------------

  /** The position in the repaired list of the message that replaces message i. */
  function Place(msgs: seq<Message>, i: nat): nat
    requires i <= |msgs|
  {
    At(Turns(msgs), i)
  }

  lemma PieceAt(msgs: seq<Message>, i: nat)
    requires i < |msgs|
    ensures Place(msgs, i) < Place(msgs, i + 1) <= |Repair(msgs)|
    ensures Repair(msgs)[Place(msgs, i)] == Cleaned(msgs, i)
  {
    RepairIsOut(msgs);
    TurnAt(Turns(msgs), i);
  }

  /** Every other message of the result consists of synthesized answers only, to calls the
      messages before it left open. */
  lemma RepairAdds(msgs: seq<Message>, p: nat) returns (i: nat)
    requires p < |Repair(msgs)|
    ensures i < |msgs|
    ensures p == Place(msgs, i) ||
            (p == Place(msgs, i) + 1 && Abandoned(msgs, i) != [] &&
             Repair(msgs)[p] == Message(RoleUser, Interrupted(Abandoned(msgs, i))))
  {
    RepairIsOut(msgs);
    i := TurnOf(Turns(msgs), p);
    TurnAt(Turns(msgs), i);
  }

  /** A message before message n calls with the id. */
  ghost predicate UsedBefore(msgs: seq<Message>, n: nat, id: string)
    requires n <= |msgs|
  {
    exists i :: 0 <= i < n && UsedIn(msgs[i].content, |msgs[i].content|, id)
  }

  /** Block k of message i is neither a repeated call, nor an orphaned or repeated result.
      Everything that is not part of a tool exchange survives. */
  ghost predicate Survives(msgs: seq<Message>, i: nat, k: nat)
    requires i < |msgs| && k < |msgs[i].content|
    decreases i, 0
  {
    match msgs[i].content[k]
    case ToolUse(id, _, _, _) => !UsedBefore(msgs, i, id) && !UsedIn(msgs[i].content, k, id)
    case ToolResult(id, _, _) => i > 0 && CallSurvives(msgs, i - 1, id) && !AnsweredIn(msgs[i].content, k, id)
    case _ => true
  }

  ghost predicate CallSurvives(msgs: seq<Message>, i: nat, id: string)
    requires i < |msgs|
    decreases i, 1
  {
    exists k :: 0 <= k < |msgs[i].content| && IsUse(msgs[i].content[k], id) && Survives(msgs, i, k)
  }

  /** The blocks at the given positions, in order. */
  function Kept(content: seq<Block>, n: nat, keep: set<nat>): seq<Block>
    requires n <= |content|
  {
    if n == 0 then []
    else if n - 1 in keep then Kept(content, n - 1, keep) + [content[n - 1]]
    else Kept(content, n - 1, keep)
  }

  ghost function Survivors(msgs: seq<Message>, i: nat): set<nat>
    requires i < |msgs|
  {
    set k: nat | k < |msgs[i].content| && Survives(msgs, i, k)
  }

  lemma {:induction false} SeenMember(msgs: seq<Message>, n: nat, id: string)
    requires RoleClean(msgs) && n <= |msgs|
    ensures id in SeenIn(msgs[..n]) <==> UsedBefore(msgs, n, id)
  {
    if n > 0 {
      SeenMember(msgs, n - 1, id);
      assert msgs[..n][..n - 1] == msgs[..n - 1];
      var content := msgs[n - 1].content;
      assert content[..|content|] == content;
      UseIdsMember(content, |content|, id);
      assert UsedIn(content, |content|, id) ==> UsedBefore(msgs, n, id);
    }
  }

  lemma {:induction false} FreshKept(content: seq<Block>, n: nat, seen: set<string>, keep: set<nat>)
    requires n <= |content|
    requires forall k: nat :: k < n ==>
      (k in keep <==> !(content[k].ToolUse? && (content[k].useId in seen || UsedIn(content, k, content[k].useId))))
    ensures FreshUses(content[..n], seen) == Kept(content, n, keep)
  {
    if n > 0 {
      FreshKept(content, n - 1, seen, keep);
      assert content[..n][..n - 1] == content[..n - 1];
      if content[n - 1].ToolUse? {
        UseIdsMember(content, n - 1, content[n - 1].useId);
      }
    }
  }

  lemma {:induction false} AnswersKept(content: seq<Block>, n: nat, asked: seq<string>, keep: set<nat>)
    requires n <= |content|
    requires forall k: nat :: k < n ==>
      (k in keep <==>
       !(content[k].ToolResult? && (content[k].resultId !in asked || AnsweredIn(content, k, content[k].resultId))))
    ensures AnswersTo(content[..n], asked) == Kept(content, n, keep)
  {
    if n > 0 {
      AnswersKept(content, n - 1, asked, keep);
      assert content[..n][..n - 1] == content[..n - 1];
      if content[n - 1].ToolResult? {
        ResultIdsMember(content, n - 1, content[n - 1].resultId);
      }
    }
  }

  lemma {:induction false} FirstUse(content: seq<Block>, n: nat, id: string) returns (k: nat)
    requires n <= |content| && UsedIn(content, n, id)
    ensures k < n && IsUse(content[k], id) && !UsedIn(content, k, id)
  {
    if UsedIn(content, n - 1, id) {
      k := FirstUse(content, n - 1, id);
    } else {
      k := n - 1;
    }
  }

  /** A call survives in an assistant message iff its id was not used before. */
  lemma AskedSurvive(msgs: seq<Message>, i: nat, id: string)
    requires RoleClean(msgs) && i < |msgs|
    ensures id in Asked(msgs, i) <==> CallSurvives(msgs, i, id)
  {
    var content := msgs[i].content;
    assert content[..|content|] == content;
    FreshAreNew(content, SeenIn(msgs[..i]));
    UseIdsMember(content, |content|, id);
    SeenMember(msgs, i, id);
    if id in Asked(msgs, i) {
      var k := FirstUse(content, |content|, id);
      assert Survives(msgs, i, k);
    }
  }

  /** Main result: message i appears at its place with exactly its surviving blocks, in
      order, or with the placeholder when nothing survived. */
  lemma RepairKeepsSurvivors(msgs: seq<Message>, i: nat)
    requires RoleClean(msgs) && i < |msgs|
    ensures Place(msgs, i) < Place(msgs, i + 1) <= |Repair(msgs)|
    ensures var kept := Kept(msgs[i].content, |msgs[i].content|, Survivors(msgs, i));
            Repair(msgs)[Place(msgs, i)] ==
              Message(msgs[i].role, if kept == [] then [Text("[Orphaned tool result removed]", false)] else kept)
  {
    PieceAt(msgs, i);
    assert msgs[i].content[..|msgs[i].content|] == msgs[i].content;
    if IsAssistant(msgs[i]) {
      AssistantSurvivors(msgs, i);
    } else {
      OtherSurvivors(msgs, i);
    }
  }

  lemma AssistantSurvivors(msgs: seq<Message>, i: nat)
    requires RoleClean(msgs) && i < |msgs| && IsAssistant(msgs[i])
    ensures FreshUses(msgs[i].content[..|msgs[i].content|], SeenIn(msgs[..i])) ==
            Kept(msgs[i].content, |msgs[i].content|, Survivors(msgs, i))
  {
    var content := msgs[i].content;
    forall k: nat | k < |content|
      ensures k in Survivors(msgs, i) <==>
              !(content[k].ToolUse? && (content[k].useId in SeenIn(msgs[..i]) || UsedIn(content, k, content[k].useId)))
    {
      if content[k].ToolUse? {
        SeenMember(msgs, i, content[k].useId);
      }
    }
    FreshKept(content, |content|, SeenIn(msgs[..i]), Survivors(msgs, i));
  }

  lemma OtherSurvivors(msgs: seq<Message>, i: nat)
    requires RoleClean(msgs) && i < |msgs| && !IsAssistant(msgs[i])
    ensures AnswersTo(msgs[i].content[..|msgs[i].content|], Due(msgs, i)) ==
            Kept(msgs[i].content, |msgs[i].content|, Survivors(msgs, i))
  {
    var content := msgs[i].content;
    forall k: nat | k < |content|
      ensures k in Survivors(msgs, i) <==>
              !(content[k].ToolResult? &&
                (content[k].resultId !in Due(msgs, i) || AnsweredIn(content, k, content[k].resultId)))
    {
      if content[k].ToolResult? && i > 0 {
        AskedSurvive(msgs, i - 1, content[k].resultId);
      }
    }
    AnswersKept(content, |content|, Due(msgs, i), Survivors(msgs, i));
  }

  // ---- Strict lists are untouched ----------------------------------------------------

  lemma {:induction false} FreshSame(content: seq<Block>, seen: set<string>)
    requires Distinct(UseIds(content))
    requires forall id :: id in UseIds(content) ==> id !in seen
    ensures FreshUses(content, seen) == content
  {
    if content != [] {
      var init, b := content[..|content| - 1], content[|content| - 1];
      if b.ToolUse? {
        var ids := UseIds(content);
        assert UseIds(init) == ids[..|ids| - 1];
        assert forall k :: 0 <= k < |ids| - 1 ==> ids[k] != ids[|ids| - 1];
      }
      FreshSame(init, seen);
    }
  }

  lemma {:induction false} AnswersSame(content: seq<Block>, asked: seq<string>)
    requires Distinct(ResultIds(content))
    requires forall id :: id in ResultIds(content) ==> id in asked
    ensures AnswersTo(content, asked) == content
  {
    if content != [] {
      var init, b := content[..|content| - 1], content[|content| - 1];
      if b.ToolResult? {
        var ids := ResultIds(content);
        assert ResultIds(init) == ids[..|ids| - 1];
        assert forall k :: 0 <= k < |ids| - 1 ==> ids[k] != ids[|ids| - 1];
      }
      AnswersSame(init, asked);
    }
  }

  lemma {:induction false} SeenIsUsed(msgs: seq<Message>)
    requires RoleClean(msgs)
    ensures forall id :: id in SeenIn(msgs) <==> id in AllUses(msgs)
  {
    if msgs != [] {
      var n := |msgs| - 1;
      SeenIsUsed(msgs[..n]);
      NoneOf(msgs[n].content);
    }
  }

  lemma {:induction false} AllUsesPrefix(msgs: seq<Message>, n: nat)
    requires n <= |msgs|
    ensures AllUses(msgs[..n]) <= AllUses(msgs)
  {
    if n < |msgs| {
      assert msgs[..|msgs| - 1][..n] == msgs[..n];
      AllUsesPrefix(msgs[..|msgs| - 1], n);
    } else {
      assert msgs[..n] == msgs;
    }
  }

  lemma RoleCleanPrefix(msgs: seq<Message>, n: nat)
    requires RoleClean(msgs) && n <= |msgs|
    ensures RoleClean(msgs[..n])
  {
  }

  lemma UsesSplit(msgs: seq<Message>, i: nat)
    requires Distinct(AllUses(msgs)) && i < |msgs|
    ensures Distinct(UseIds(msgs[i].content))
    ensures forall id :: id in UseIds(msgs[i].content) ==> id !in AllUses(msgs[..i])
  {
    AllUsesNext(msgs, i);
    DistinctSplit(AllUses(msgs[..i]), UseIds(msgs[i].content), AllUses(msgs));
  }

  lemma AllUsesNext(msgs: seq<Message>, i: nat)
    requires i < |msgs|
    ensures AllUses(msgs[..i]) + UseIds(msgs[i].content) <= AllUses(msgs)
  {
    AllUsesPrefix(msgs, i + 1);
    AllUsesLast(msgs[..i + 1]);
    assert msgs[..i + 1][..i] == msgs[..i];
  }

  lemma AllUsesLast(msgs: seq<Message>)
    requires msgs != []
    ensures AllUses(msgs) == AllUses(msgs[..|msgs| - 1]) + UseIds(msgs[|msgs| - 1].content)
  {
  }

  lemma DistinctSplit(a: seq<string>, b: seq<string>, all: seq<string>)
    requires a + b <= all && Distinct(all)
    ensures Distinct(b) && forall id :: id in b ==> id !in a
  {
    assert forall k :: 0 <= k < |b| ==> all[|a| + k] == (a + b)[|a| + k] == b[k];
    assert forall k :: 0 <= k < |a| ==> all[k] == (a + b)[k] == a[k];
  }

  /** With distinct ids every call is asked for. */
  lemma DistinctAsked(msgs: seq<Message>, i: nat)
    requires RoleClean(msgs) && Distinct(AllUses(msgs)) && i < |msgs|
    ensures Asked(msgs, i) == UseIds(msgs[i].content)
    ensures IsAssistant(msgs[i]) ==> FreshUses(msgs[i].content, SeenIn(msgs[..i])) == msgs[i].content
  {
    UsesSplit(msgs, i);
    RoleCleanPrefix(msgs, i);
    SeenIsUsed(msgs[..i]);
    if IsAssistant(msgs[i]) {
      FreshSame(msgs[i].content, SeenIn(msgs[..i]));
    } else {
      NoneOf(msgs[i].content);
    }
  }

  lemma StrictPiece(msgs: seq<Message>, i: nat)
    requires RoleClean(msgs) && Strict(msgs) && i < |msgs|
    ensures Piece(msgs, i) == [msgs[i]]
  {
    DistinctAsked(msgs, i);
    assert StrictAt(msgs, i);
    if !IsAssistant(msgs[i]) {
      StrictAnswers(msgs, i);
      AnswersSame(msgs[i].content, Due(msgs, i));
    }
  }

  lemma StrictAnswers(msgs: seq<Message>, i: nat)
    requires RoleClean(msgs) && Strict(msgs) && i < |msgs| && !IsAssistant(msgs[i])
    ensures Distinct(ResultIds(msgs[i].content)) && forall id :: id in ResultIds(msgs[i].content) ==> id in Due(msgs, i)
    ensures Unanswered(Due(msgs, i), ResultIds(msgs[i].content)) == []
  {
    assert StrictAt(msgs, i);
    if i > 0 {
      DistinctAsked(msgs, i - 1);
      AskedFresh(msgs, i - 1);
    }
    SameCount(ResultIds(msgs[i].content), Due(msgs, i));
  }

  lemma SameCount(results: seq<string>, due: seq<string>)
    requires Distinct(due) && multiset(results) == multiset(due)
    ensures Distinct(results) && (forall id :: id in results <==> id in due) && Unanswered(due, results) == []
  {
    forall id ensures multiset(results)[id] <= 1 && (id in results <==> id in due) {
      DistinctCount(due, id);
      assert id in results <==> id in multiset(results);
      assert id in due <==> id in multiset(due);
    }
    CountDistinct(results);
    UnansweredMembers(due, results);
    EmptyOrMember(Unanswered(due, results));
  }

  /** A strictly paired list is returned unchanged. */
  lemma StrictUntouched(msgs: seq<Message>)
    requires RoleClean(msgs) && Strict(msgs)
    ensures Repair(msgs) == msgs
  {
    forall i | 0 <= i < |msgs| ensures Pieces(msgs)[i] == [msgs[i]] {
      StrictPiece(msgs, i);
    }
    FlatSingles(Pieces(msgs), msgs, |msgs|);
    assert msgs[..|msgs|] == msgs;
  }

  // ---- Untouched lists are strict -------------------------------------------------------

  lemma PlaceGrows(msgs: seq<Message>, i: nat)
    requires i < |msgs|
    ensures Place(msgs, i) >= i && |Repair(msgs)| - Place(msgs, i + 1) >= |msgs| - (i + 1)
  {
    RepairIsOut(msgs);
    StartGrows(Parts(Turns(msgs)), 0, i);
    StartGrows(Parts(Turns(msgs)), i + 1, |msgs|);
  }

  lemma UntouchedNothingLeft(msgs: seq<Message>, i: nat)
    requires |Repair(msgs)| == |msgs| && i < |msgs|
    ensures Abandoned(msgs, i) == []
  {
    RepairIsOut(msgs);
    PlaceGrows(msgs, i);
    TurnAt(Turns(msgs), i);
  }

  lemma UntouchedIsStrict(msgs: seq<Message>)
    requires RoleClean(msgs) && Repair(msgs) == msgs
    ensures Strict(msgs)
  {
    forall i | 0 <= i < |msgs| ensures Turns(msgs)[i].left == [] {
      UntouchedNothingLeft(msgs, i);
    }
    RepairIsOut(msgs);
    TurnsChain(msgs);
    OutStrict(Turns(msgs));
  }

  /** Main result: the fixed points of the repair are exactly the strictly paired lists. */
  lemma FixedPoints(msgs: seq<Message>)
    requires RoleClean(msgs)
    ensures Repair(msgs) == msgs <==> Strict(msgs)
  {
    if Strict(msgs) {
      StrictUntouched(msgs);
    }
    if Repair(msgs) == msgs {
      UntouchedIsStrict(msgs);
    }
  }

  // ---- When one pass is enough ------------------------------------------------------------

  /** No message that gets the chance to answer the calls before it leaves one open. */
  predicate Settled(msgs: seq<Message>) {
    forall i :: 0 <= i < |msgs| && !IsAssistant(msgs[i]) ==>
      Unanswered(Due(msgs, i), ResultIds(msgs[i].content)) == []
  }

  lemma SettledIff(msgs: seq<Message>)
    ensures Settled(msgs) <==> SettledTurns(Turns(msgs))
  {
    var turns := Turns(msgs);
    assert forall i :: 0 <= i < |msgs| ==> turns[i].msg.role == msgs[i].role;
    if SettledTurns(turns) {
      forall i | 0 <= i < |msgs| && !IsAssistant(msgs[i]) ensures Abandoned(msgs, i) == [] {
        assert turns[i].left == Abandoned(msgs, i);
      }
    }
  }

  lemma RepairRoleClean(msgs: seq<Message>)
    requires RoleClean(msgs)
    ensures RoleClean(Repair(msgs))
  {
    var out := Repair(msgs);
    forall p, k | 0 <= p < |out| && 0 <= k < |out[p].content|
      ensures out[p].content[k].ToolUse? ==> IsAssistant(out[p])
      ensures out[p].content[k].ToolResult? ==> !IsAssistant(out[p])
    {
      var i := RepairAdds(msgs, p);
      PieceAt(msgs, i);
      if p == Place(msgs, i) {
        CleanedBlocks(msgs, i, k);
      }
    }
  }

  /** The repair reaches a list it leaves alone iff the input is settled. */
  lemma OnePassEnough(msgs: seq<Message>)
    requires RoleClean(msgs)
    ensures Strict(Repair(msgs)) <==> Settled(msgs)
    ensures Repair(Repair(msgs)) == Repair(msgs) <==> Settled(msgs)
  {
    RepairIsOut(msgs);
    TurnsChain(msgs);
    SettledIff(msgs);
    if Settled(msgs) {
      OutStrict(Turns(msgs));
    }
    if Strict(Repair(msgs)) {
      StrictOutSettled(Turns(msgs));
    }
    RepairRoleClean(msgs);
    FixedPoints(Repair(msgs));
  }

  lemma DueIsAskedBefore(msgs: seq<Message>, p: nat)
    requires RoleClean(msgs) && Distinct(AllUses(msgs)) && p <= |msgs|
    ensures Due(msgs, p) == AskedBefore(msgs, p)
  {
    if p > 0 {
      DistinctAsked(msgs, p - 1);
    }
  }

  lemma DueToTurn(msgs: seq<Message>, i: nat)
    requires RoleClean(msgs) && i < |msgs|
    ensures DueTo(Turns(msgs), i) == Due(msgs, i)
  {
    if i > 0 {
      CleanedIds(msgs, i - 1);
    }
  }

  /** What is due to a message is due to it again in the repaired list. */
  lemma DueStays(msgs: seq<Message>, i: nat)
    requires RoleClean(msgs) && i < |msgs| && !IsAssistant(msgs[i])
    ensures Place(msgs, i) < |Repair(msgs)| && Due(Repair(msgs), Place(msgs, i)) == Due(msgs, i)
  {
    RepairIsOut(msgs);
    TurnsChain(msgs);
    DueBefore(Turns(msgs), i);
    DueToTurn(msgs, i);
    RepairCloses(msgs);
    RepairRoleClean(msgs);
    DueIsAskedBefore(Repair(msgs), Place(msgs, i));
  }

  /** An id left open by message i is left open by it again in the repaired list. */
  lemma StaysAbandoned(msgs: seq<Message>, i: nat, id: string)
    requires RoleClean(msgs) && i < |msgs| && !IsAssistant(msgs[i]) && id in Abandoned(msgs, i)
    ensures Place(msgs, i) < |Repair(msgs)| && !IsAssistant(Repair(msgs)[Place(msgs, i)])
    ensures id in Abandoned(Repair(msgs), Place(msgs, i))
  {
    var out, p := Repair(msgs), Place(msgs, i);
    UnansweredMember(Due(msgs, i), ResultIds(msgs[i].content), id);
    PieceAt(msgs, i);
    DueStays(msgs, i);
    CleanedIds(msgs, i);
    AnswersMembers(msgs[i].content, Due(msgs, i));
    UnansweredMember(Due(out, p), ResultIds(out[p].content), id);
  }

  /** Otherwise no number of passes is: every pass lengthens the list, and its result is
      unsettled again. */
  lemma UnsettledForever(msgs: seq<Message>)
    requires RoleClean(msgs) && !Settled(msgs)
    ensures |Repair(msgs)| > |msgs| && RoleClean(Repair(msgs)) && !Settled(Repair(msgs))
  {
    var i: nat :| i < |msgs| && !IsAssistant(msgs[i]) && Unanswered(Due(msgs, i), ResultIds(msgs[i].content)) != [];
    RepairRoleClean(msgs);
    PlaceGrows(msgs, i);
    RepairIsOut(msgs);
    TurnAt(Turns(msgs), i);
    StaysAbandoned(msgs, i, Abandoned(msgs, i)[0]);
    assert Unanswered(Due(Repair(msgs), Place(msgs, i)), ResultIds(Repair(msgs)[Place(msgs, i)].content)) != [];
  }

  /** An interrupted call followed by an ordinary message is the smallest such list. */
  lemma InterruptedCallNeverSettles(id: string, text: string)
    ensures var msgs := [Message(RoleAssistant, [ToolUse(id, "", [], "")]), TextMessage(RoleUser, text)];
            RoleClean(msgs) && !Settled(msgs)
  {
    var use := [ToolUse(id, "", [], "")];
    var msgs := [Message(RoleAssistant, use), TextMessage(RoleUser, text)];
    FreshCall(id);
    assert msgs[..0] == [] && Due(msgs, 1) == [id];
    NoneOf(msgs[1].content);
    UnansweredNothing([id]);
    assert Unanswered(Due(msgs, 1), ResultIds(msgs[1].content)) == [id];
  }

  lemma FreshCall(id: string)
    ensures var use := [ToolUse(id, "", [], "")]; FreshUses(use, {}) == use && UseIds(use) == [id]
  {
    var use := [ToolUse(id, "", [], "")];
    assert use[..0] == [] && FreshUses(use[..0], {}) == [] && UseIds(use[..0]) == [];
  }
}
