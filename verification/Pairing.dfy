/** Repair of tool_use / tool_result pairing (internal/contextmgmt/pairing.go).

    The repair is specified without state: what a message becomes depends only on the
    message, its predecessor, and the tool calls made before it. `EnsurePairing` is the
    source's single pass over the list, proved to compute exactly that. */
module Pairing {
  import opened Provider

  const INTERRUPTED := "[Tool use interrupted]"
  const ORPHAN_REMOVED := "[Orphaned tool result removed]"

  // ---- What the repair makes of one message ------------------------------------

  function EnsureNonEmpty(content: seq<Block>): seq<Block> {
    if content == [] then [Text(ORPHAN_REMOVED, false)] else content
  }

  /** An assistant's content without the calls whose id was used before. */
  function FreshUses(content: seq<Block>, seen: set<string>): seq<Block> {
    if content == [] then [] else
    var init, b := content[..|content| - 1], content[|content| - 1];
    if b.ToolUse? && (b.useId in seen || b.useId in UseIds(init)) then FreshUses(init, seen)
    else FreshUses(init, seen) + [b]
  }

  /** A non-assistant's content with only the first answer to each asked id. */
  function AnswersTo(content: seq<Block>, asked: seq<string>): seq<Block> {
    if content == [] then [] else
    var init, b := content[..|content| - 1], content[|content| - 1];
    if b.ToolResult? && (b.resultId !in asked || b.resultId in ResultIds(init)) then AnswersTo(init, asked)
    else AnswersTo(init, asked) + [b]
  }

  /** The asked ids that a content array leaves unanswered, in order. */
  function Unanswered(asked: seq<string>, answers: seq<string>): seq<string> {
    if asked == [] then [] else
    var init, id := asked[..|asked| - 1], asked[|asked| - 1];
    if id in answers then Unanswered(init, answers) else Unanswered(init, answers) + [id]
  }

  function Interrupted(ids: seq<string>): seq<Block> {
    seq(|ids|, i requires 0 <= i < |ids| => ToolResult(ids[i], INTERRUPTED, true))
  }

  function Flush(ids: seq<string>): seq<Message> {
    if ids == [] then [] else [Message(RoleUser, Interrupted(ids))]
  }

  // ---- The repair of a whole list ------------------------------------------------

  /** Every id used by an assistant message of the list. */
  function SeenIn(msgs: seq<Message>): set<string> {
    if msgs == [] then {} else
    var init, m := msgs[..|msgs| - 1], msgs[|msgs| - 1];
    if IsAssistant(m) then SeenIn(init) + ToSet(UseIds(m.content)) else SeenIn(init)
  }

  /** The ids message i asks for: its calls that were not used earlier. */
  function Asked(msgs: seq<Message>, i: nat): seq<string>
    requires i < |msgs|
  {
    if IsAssistant(msgs[i]) then UseIds(FreshUses(msgs[i].content, SeenIn(msgs[..i]))) else []
  }

  /** The ids that are waiting for an answer when message i is reached. */
  function Due(msgs: seq<Message>, i: nat): seq<string>
    requires i <= |msgs|
  {
    if i == 0 then [] else Asked(msgs, i - 1)
  }

  function Cleaned(msgs: seq<Message>, i: nat): Message
    requires i < |msgs|
  {
    var m := msgs[i];
    m.(content := EnsureNonEmpty(
      if IsAssistant(m) then FreshUses(m.content, SeenIn(msgs[..i]))
      else AnswersTo(m.content, Due(msgs, i))))
  }

  /** The ids answered synthetically right after message i: those it leaves open, unless
      the next message still gets the chance to answer them. */
  function Abandoned(msgs: seq<Message>, i: nat): seq<string>
    requires i < |msgs|
  {
    if !IsAssistant(msgs[i]) then Unanswered(Due(msgs, i), ResultIds(msgs[i].content))
    else if i + 1 < |msgs| && !IsAssistant(msgs[i + 1]) then []
    else Asked(msgs, i)
  }

  function Piece(msgs: seq<Message>, i: nat): seq<Message>
    requires i < |msgs|
  {
    [Cleaned(msgs, i)] + Flush(Abandoned(msgs, i))
  }

  function Pieces(msgs: seq<Message>): seq<seq<Message>> {
    seq(|msgs|, i requires 0 <= i < |msgs| => Piece(msgs, i))
  }

  /** The first n parts, one after the other. */
  function Flat<T>(parts: seq<seq<T>>, n: nat): seq<T>
    requires n <= |parts|
  {
    if n == 0 then [] else Flat(parts, n - 1) + parts[n - 1]
  }

  function Repair(msgs: seq<Message>): seq<Message> {
    Flat(Pieces(msgs), |msgs|)
  }

  // ---- The source's loop ---------------------------------------------------------

  method RemovePending(pending: seq<string>, id: string) returns (out: seq<string>)
    ensures out == Unanswered(pending, [id])
  {
    out := [];
    for i := 0 to |pending|
      invariant out == Unanswered(pending[..i], [id])
    {
      assert pending[..i + 1][..i] == pending[..i];
      if pending[i] != id {
        out := out + [pending[i]];
      }
    }
    assert pending[..|pending|] == pending;
  }

  lemma {:induction false} UnansweredTwice(asked: seq<string>, a: seq<string>, b: seq<string>)
    ensures Unanswered(Unanswered(asked, a), b) == Unanswered(asked, a + b)
  {
    if asked != [] {
      var init, x := asked[..|asked| - 1], asked[|asked| - 1];
      UnansweredTwice(init, a, b);
      if x !in a {
        var u := Unanswered(asked, a);
        assert u[..|u| - 1] == Unanswered(init, a);
      }
    }
  }

  lemma {:induction false} UnansweredMember(asked: seq<string>, answers: seq<string>, id: string)
    ensures id in Unanswered(asked, answers) <==> id in asked && id !in answers
  {
    if asked != [] {
      UnansweredMember(asked[..|asked| - 1], answers, id);
      assert asked == asked[..|asked| - 1] + [asked[|asked| - 1]];
    }
  }

  lemma {:induction false} UnansweredNothing(asked: seq<string>)
    ensures Unanswered(asked, []) == asked
  {
    if asked != [] {
      UnansweredNothing(asked[..|asked| - 1]);
    }
  }

  /** The assistant branch of the loop: keep the calls not seen before. */
  method KeepFresh(content: seq<Block>, seen0: set<string>)
    returns (kept: seq<Block>, pending: seq<string>, seen: set<string>)
    ensures kept == FreshUses(content, seen0) && pending == UseIds(kept)
    ensures seen == seen0 + ToSet(UseIds(content))
  {
    kept, pending, seen := [], [], seen0;
    for k := 0 to |content|
      invariant kept == FreshUses(content[..k], seen0) && pending == UseIds(kept)
      invariant seen == seen0 + ToSet(UseIds(content[..k]))
    {
      assert content[..k + 1][..k] == content[..k];
      var b := content[k];
      if b.ToolUse? && b.useId in seen {
      } else {
        if b.ToolUse? {
          seen := seen + {b.useId};
          pending := pending + [b.useId];
        }
        assert (kept + [b])[..|kept|] == kept;
        kept := kept + [b];
      }
    }
    assert content[..|content|] == content;
  }

  /** The non-assistant branch: keep the first answer to each pending id. An id answered
      earlier in the list is never pending again, so the duplicate test of the source adds
      nothing to the pending test. */
  method KeepAnswers(content: seq<Block>, pending0: seq<string>, answered0: set<string>)
    returns (kept: seq<Block>, pending: seq<string>, answered: set<string>)
    requires forall id :: id in pending0 ==> id !in answered0
    ensures kept == AnswersTo(content, pending0)
    ensures pending == Unanswered(pending0, ResultIds(content))
    ensures forall id :: id in pending ==> id !in answered
    ensures forall id :: id in answered ==> id in answered0 || id in pending0
  {
    kept, pending, answered := [], pending0, answered0;
    UnansweredNothing(pending0);
    for k := 0 to |content|
      invariant kept == AnswersTo(content[..k], pending0)
      invariant pending == Unanswered(pending0, ResultIds(content[..k]))
      invariant forall id :: id in pending ==> id !in answered
      invariant forall id :: id in answered ==> id in answered0 || id in pending0
      invariant forall id :: id in pending0 && id in ResultIds(content[..k]) ==> id in answered
    {
      assert content[..k + 1][..k] == content[..k];
      var b := content[k];
      if b.ToolResult? {
        UnansweredMember(pending0, ResultIds(content[..k]), b.resultId);
        UnansweredTwice(pending0, ResultIds(content[..k]), [b.resultId]);
        if b.resultId in answered || b.resultId !in pending {
          UnansweredAbsent(pending, b.resultId);
        } else {
          answered := answered + {b.resultId};
          pending := RemovePending(pending, b.resultId);
          forall id | id in pending ensures id !in answered {
            UnansweredMember(Unanswered(pending0, ResultIds(content[..k])), [b.resultId], id);
          }
          kept := kept + [b];
        }
      } else {
        kept := kept + [b];
      }
    }
    assert content[..|content|] == content;
  }

  lemma {:induction false} UnansweredAbsent(asked: seq<string>, id: string)
    requires id !in asked
    ensures Unanswered(asked, [id]) == asked
  {
    if asked != [] {
      assert asked == asked[..|asked| - 1] + [asked[|asked| - 1]];
      UnansweredAbsent(asked[..|asked| - 1], id);
    }
  }

  /** What the source's loop has written before message i, while the answers to `Due` are
      still pending. */
  function Written(msgs: seq<Message>, i: nat): seq<Message>
    requires i <= |msgs|
  {
    if i > 0 && IsAssistant(msgs[i - 1]) then Flat(Pieces(msgs), i - 1) + [Cleaned(msgs, i - 1)]
    else Flat(Pieces(msgs), i)
  }

  /** What the loop knows when it reaches message i. */
  ghost predicate Reached(msgs: seq<Message>, i: nat, out: seq<Message>, seenUse: set<string>,
                          seenResult: set<string>, pending: seq<string>)
  {
    && i <= |msgs|
    && out == Written(msgs, i) && pending == Due(msgs, i)
    && seenUse == SeenIn(msgs[..i])
    && seenResult <= seenUse
    && (forall id :: id in pending ==> id in seenUse && id !in seenResult)
  }

  function ToSet(ids: seq<string>): set<string> {
    set id | id in ids
  }

  method EnsurePairing(msgs: seq<Message>) returns (out: seq<Message>)
    ensures out == Repair(msgs)
  {
    out := [];
    var seenUse, seenResult, pending := {}, {}, [];
    for i := 0 to |msgs|
      invariant Reached(msgs, i, out, seenUse, seenResult, pending)
    {
      if IsAssistant(msgs[i]) {
        out, seenUse, seenResult, pending := AssistantTurn(msgs, i, out, seenUse, seenResult, pending);
      } else {
        out, seenResult, pending := OtherTurn(msgs, i, out, seenUse, seenResult, pending);
      }
    }
    assert msgs[..|msgs|] == msgs;
    out := out + Flush(pending);
  }

  method AssistantTurn(msgs: seq<Message>, i: nat, out0: seq<Message>, seenUse0: set<string>,
                       seenResult0: set<string>, pending0: seq<string>)
    returns (out: seq<Message>, seenUse: set<string>, seenResult: set<string>, pending: seq<string>)
    requires i < |msgs| && IsAssistant(msgs[i])
    requires Reached(msgs, i, out0, seenUse0, seenResult0, pending0)
    ensures Reached(msgs, i + 1, out, seenUse, seenResult, pending)
  {
    WrittenStep(msgs, i);
    assert msgs[..i + 1][..i] == msgs[..i];
    seenResult := seenResult0 + ToSet(pending0);
    out := out0 + Flush(pending0);
    FreshAreNew(msgs[i].content, seenUse0);
    var content;
    content, pending, seenUse := KeepFresh(msgs[i].content, seenUse0);
    out := out + [msgs[i].(content := EnsureNonEmpty(content))];
  }

  method OtherTurn(msgs: seq<Message>, i: nat, out0: seq<Message>, seenUse: set<string>,
                   seenResult0: set<string>, pending0: seq<string>)
    returns (out: seq<Message>, seenResult: set<string>, pending: seq<string>)
    requires i < |msgs| && !IsAssistant(msgs[i])
    requires Reached(msgs, i, out0, seenUse, seenResult0, pending0)
    ensures Reached(msgs, i + 1, out, seenUse, seenResult, pending)
  {
    WrittenStep(msgs, i);
    assert msgs[..i + 1][..i] == msgs[..i];
    var content;
    content, pending, seenResult := KeepAnswers(msgs[i].content, pending0, seenResult0);
    UnansweredMembers(pending0, ResultIds(msgs[i].content));
    out := out0 + [msgs[i].(content := EnsureNonEmpty(content))];
    seenResult := seenResult + ToSet(pending);
    out := out + Flush(pending);
    pending := [];
  }

  /** One step of the loop: the answers still due are written off before an assistant
      message, and after any other message. */
  lemma WrittenStep(msgs: seq<Message>, i: nat)
    requires i < |msgs|
    ensures IsAssistant(msgs[i]) ==>
      Written(msgs, i + 1) == Written(msgs, i) + Flush(Due(msgs, i)) + [Cleaned(msgs, i)]
    ensures !IsAssistant(msgs[i]) ==>
      Written(msgs, i + 1) == Written(msgs, i) + [Cleaned(msgs, i)] +
                              Flush(Unanswered(Due(msgs, i), ResultIds(msgs[i].content)))
  {
    if i > 0 && IsAssistant(msgs[i - 1]) {
      var before := Flat(Pieces(msgs), i - 1);
      if IsAssistant(msgs[i]) {
        assert Flat(Pieces(msgs), i) == before + [Cleaned(msgs, i - 1)] + Flush(Due(msgs, i));
      } else {
        assert Piece(msgs, i - 1) == [Cleaned(msgs, i - 1)];
      }
    }
  }

  lemma UnansweredMembers(asked: seq<string>, answers: seq<string>)
    ensures forall id :: id in Unanswered(asked, answers) <==> id in asked && id !in answers
  {
    forall id {
      UnansweredMember(asked, answers, id);
    }
  }

  lemma {:induction false} FreshAreNew(content: seq<Block>, seen: set<string>)
    ensures forall id :: id in UseIds(FreshUses(content, seen)) <==> id in UseIds(content) && id !in seen
  {
    if content != [] {
      var init, b := content[..|content| - 1], content[|content| - 1];
      FreshAreNew(init, seen);
      UseIdsAppend(FreshUses(init, seen), [b]);
      assert [b][..0] == [];
    }
  }
}
