/** The answers the repair writes, told by the messages of the list alone
    (internal/contextmgmt/pairing.go:24-89). */
module PairingAnswers {
  import opened Provider
  import opened Pairing
  import opened PairingTurns
  import opened PairingProperties
  import opened Selections

  /** The calls that can be open when message i has been read: its own, or those of the
      message before it. */
  function AskingContent(msgs: seq<Message>, i: nat): seq<Block>
    requires i < |msgs|
  {
    if IsAssistant(msgs[i]) then msgs[i].content else if i > 0 then msgs[i - 1].content else []
  }

  /** Block k of the asking message is a call that survives the repair and that message i
      does not answer, with no later message that could. */
  ghost predicate LeftOpen(msgs: seq<Message>, i: nat, k: nat) {
    && i < |msgs| && k < |AskingContent(msgs, i)| && AskingContent(msgs, i)[k].ToolUse?
    && (if IsAssistant(msgs[i]) then Survives(msgs, i, k) && (i + 1 < |msgs| ==> IsAssistant(msgs[i + 1]))
        else
          Survives(msgs, i - 1, k) &&
          !AnsweredIn(msgs[i].content, |msgs[i].content|, msgs[i - 1].content[k].useId))
  }

  /** Entry j of the ids is the id of call k. */
  ghost predicate IdOf(ids: seq<string>, content: seq<Block>, j: nat, k: nat) {
    j < |ids| && k < |content| && IsUse(content[k], ids[j])
  }

  /** The calls among the first n blocks that were not used before, and are not answered. */
  ghost predicate OpenCall(content: seq<Block>, seen: set<string>, answers: seq<string>, n: nat, k: nat) {
    k < n <= |content| && content[k].ToolUse? && content[k].useId !in answers && content[k].useId !in seen &&
    !UsedIn(content, k, content[k].useId)
  }

  lemma {:induction false} OpenCalls(content: seq<Block>, seen: set<string>, answers: seq<string>, n: nat)
    returns (at: seq<nat>)
    requires n <= |content|
    ensures var open := Unanswered(UseIds(FreshUses(content[..n], seen)), answers);
            Positions(at, n, (k: nat) => OpenCall(content, seen, answers, n, k)) &&
            Matched(at, |open|, (j: nat, k: nat) => IdOf(open, content, j, k))
  {
    if n == 0 {
      at := [];
      return;
    }
    at := OpenCalls(content, seen, answers, n - 1);
    var was := Unanswered(UseIds(FreshUses(content[..n - 1], seen)), answers);
    var open := Unanswered(UseIds(FreshUses(content[..n], seen)), answers);
    NextOpen(content, seen, answers, n);
    at := NextSelected(at, n - 1, (k: nat) => OpenCall(content, seen, answers, n - 1, k),
                       (k: nat) => OpenCall(content, seen, answers, n, k),
                       |was|, (j: nat, k: nat) => IdOf(was, content, j, k),
                         (j: nat, k: nat) => IdOf(open, content, j, k));
  }

  lemma NextOpen(content: seq<Block>, seen: set<string>, answers: seq<string>, n: nat)
    requires 0 < n <= |content|
    ensures var was := Unanswered(UseIds(FreshUses(content[..n - 1], seen)), answers);
            var open := Unanswered(UseIds(FreshUses(content[..n], seen)), answers);
            open == if OpenCall(content, seen, answers, n, n - 1) then was + [content[n - 1].useId] else was
  {
    var init, b := content[..n - 1], content[n - 1];
    assert content[..n][..n - 1] == init;
    if b.ToolUse? {
      UseIdsMember(content, n - 1, b.useId);
    }
    var kept := FreshUses(init, seen);
    assert (kept + [b])[..|kept|] == kept;
    assert b.ToolUse? ==> (UseIds(kept) + [b.useId])[..|UseIds(kept)|] == UseIds(kept);
  }

  /** The ids written off after message i are those of the calls left open, in order. */
  lemma AbandonedAre(msgs: seq<Message>, i: nat) returns (at: seq<nat>)
    requires RoleClean(msgs) && i < |msgs|
    ensures Positions(at, |AskingContent(msgs, i)|, (k: nat) => LeftOpen(msgs, i, k))
    ensures Matched(at, |Abandoned(msgs, i)|,
                    (j: nat, k: nat) => IdOf(Abandoned(msgs, i), AskingContent(msgs, i), j, k))
  {
    var content := AskingContent(msgs, i);
    assert content[..|content|] == content;
    if IsAssistant(msgs[i]) {
      at := AbandonedByCall(msgs, i);
    } else if i > 0 && IsAssistant(msgs[i - 1]) {
      at := AbandonedByAnswer(msgs, i);
    } else {
      at := [];
    }
  }

  lemma AbandonedByCall(msgs: seq<Message>, i: nat) returns (at: seq<nat>)
    requires RoleClean(msgs) && i < |msgs| && IsAssistant(msgs[i])
    ensures Positions(at, |msgs[i].content|, (k: nat) => LeftOpen(msgs, i, k))
    ensures Matched(at, |Abandoned(msgs, i)|, (j: nat, k: nat) => IdOf(Abandoned(msgs, i), msgs[i].content, j, k))
  {
    var content, seen := msgs[i].content, SeenIn(msgs[..i]);
    assert content[..|content|] == content;
    if i + 1 < |msgs| && !IsAssistant(msgs[i + 1]) {
      at := [];
    } else {
      at := OpenCalls(content, seen, [], |content|);
      UnansweredNothing(Asked(msgs, i));
      forall k: nat ensures OpenCall(content, seen, [], |content|, k) <==> LeftOpen(msgs, i, k) {
        if k < |content| && content[k].ToolUse? {
          SeenMember(msgs, i, content[k].useId);
        }
      }
    }
  }

  lemma AbandonedByAnswer(msgs: seq<Message>, i: nat) returns (at: seq<nat>)
    requires RoleClean(msgs) && 0 < i < |msgs| && !IsAssistant(msgs[i]) && IsAssistant(msgs[i - 1])
    ensures Positions(at, |msgs[i - 1].content|, (k: nat) => LeftOpen(msgs, i, k))
    ensures Matched(at, |Abandoned(msgs, i)|, (j: nat, k: nat) => IdOf(Abandoned(msgs, i), msgs[i - 1].content, j, k))
  {
    var content, seen, answers := msgs[i - 1].content, SeenIn(msgs[..i - 1]), ResultIds(msgs[i].content);
    assert content[..|content|] == content && msgs[i].content[..|msgs[i].content|] == msgs[i].content;
    at := OpenCalls(content, seen, answers, |content|);
    forall k: nat ensures OpenCall(content, seen, answers, |content|, k) <==> LeftOpen(msgs, i, k) {
      if k < |content| && content[k].ToolUse? {
        SeenMember(msgs, i - 1, content[k].useId);
        ResultIdsMember(msgs[i].content, |msgs[i].content|, content[k].useId);
      }
    }
  }

  /** Block j of the answer tells the model that call k was interrupted. */
  ghost predicate WritesOff(answer: seq<Block>, calls: seq<Block>, j: nat, k: nat) {
    j < |answer| && k < |calls| && calls[k].ToolUse? &&
    answer[j] == ToolResult(calls[k].useId, "[Tool use interrupted]", true)
  }

  /** Main result: the repaired list consists of what becomes of each message in turn and,
      right behind a message that leaves calls open, one user message that answers exactly
      those calls, in their order, as interrupted. */
  lemma AddedExactly(msgs: seq<Message>, i: nat) returns (at: seq<nat>)
    requires RoleClean(msgs) && i < |msgs|
    ensures Place(msgs, 0) == 0 && Place(msgs, |msgs|) == |Repair(msgs)|
    ensures Place(msgs, i) + 1 <= Place(msgs, i + 1) <= |Repair(msgs)|
    ensures Positions(at, |AskingContent(msgs, i)|, (k: nat) => LeftOpen(msgs, i, k))
    ensures Place(msgs, i + 1) == Place(msgs, i) + if at == [] then 1 else 2
    ensures at != [] ==>
              var added := Repair(msgs)[Place(msgs, i) + 1];
              added.role == RoleUser &&
              Matched(at, |added.content|, (j: nat, k: nat) => WritesOff(added.content, AskingContent(msgs, i), j, k))
  {
    at := AbandonedAre(msgs, i);
    PlacesCover(msgs);
    PlaceNext(msgs, i);
    WrittenOff(at, Abandoned(msgs, i), AskingContent(msgs, i));
  }

  lemma WrittenOff(at: seq<nat>, ids: seq<string>, calls: seq<Block>)
    requires Matched(at, |ids|, (j: nat, k: nat) => IdOf(ids, calls, j, k))
    ensures Matched(at, |Interrupted(ids)|, (j: nat, k: nat) => WritesOff(Interrupted(ids), calls, j, k))
    ensures at == [] <==> ids == []
  {
  }

  lemma PlacesCover(msgs: seq<Message>)
    ensures Place(msgs, 0) == 0 && Place(msgs, |msgs|) == |Repair(msgs)|
  {
    RepairIsOut(msgs);
  }

  lemma PlaceNext(msgs: seq<Message>, i: nat)
    requires i < |msgs|
    ensures Place(msgs, i + 1) == Place(msgs, i) + (if Abandoned(msgs, i) == [] then 1 else 2)
    ensures Place(msgs, i + 1) <= |Repair(msgs)|
    ensures Abandoned(msgs, i) != [] ==>
              Repair(msgs)[Place(msgs, i) + 1] == Message(RoleUser, Interrupted(Abandoned(msgs, i)))
  {
    RepairIsOut(msgs);
    TurnAt(Turns(msgs), i);
  }
}
