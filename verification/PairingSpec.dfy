/** The two normal forms of tool pairing (internal/contextmgmt/pairing.go:7-19), with
    facts about lists of ids and about flattened lists. */
module PairingSpec {
  import opened Provider
  import opened Pairing

  // ---- Vocabulary ------------------------------------------------------------------

  ghost predicate Distinct(ids: seq<string>) {
    forall a, b :: 0 <= a < b < |ids| ==> ids[a] != ids[b]
  }

  function AllUses(msgs: seq<Message>): seq<string> {
    if msgs == [] then [] else
    AllUses(msgs[..|msgs| - 1]) + UseIds(msgs[|msgs| - 1].content)
  }

  function AllResults(msgs: seq<Message>): seq<string> {
    if msgs == [] then [] else
    AllResults(msgs[..|msgs| - 1]) + ResultIds(msgs[|msgs| - 1].content)
  }

  /** The content of the (at most two) messages from j on that precede the next
      assistant message. */
  function Window(msgs: seq<Message>, j: nat): seq<Block> {
    if j >= |msgs| || IsAssistant(msgs[j]) then []
    else if j + 1 >= |msgs| || IsAssistant(msgs[j + 1]) then msgs[j].content
    else msgs[j].content + msgs[j + 1].content
  }

  ghost predicate NonEmpty(msgs: seq<Message>) {
    forall i :: 0 <= i < |msgs| ==> msgs[i].content != []
  }

  /** Every call is answered within its window, the results of the list are exactly its
      calls (each id once), and no message is empty. */
  ghost predicate Closed(msgs: seq<Message>) {
    && NonEmpty(msgs)
    && Distinct(AllUses(msgs))
    && multiset(AllResults(msgs)) == multiset(AllUses(msgs))
    && (forall i, id :: 0 <= i < |msgs| && id in UseIds(msgs[i].content) ==>
          id in ResultIds(Window(msgs, i + 1)))
  }

  /** The calls message i has to answer: those of the message right before it. */
  function AskedBefore(msgs: seq<Message>, i: nat): seq<string>
    requires i <= |msgs|
  {
    if i > 0 then UseIds(msgs[i - 1].content) else []
  }

  /** The provider's contract: the single message after a call answers it, once, and
      results occur nowhere else. */
  ghost predicate Strict(msgs: seq<Message>) {
    && NonEmpty(msgs)
    && Distinct(AllUses(msgs))
    && (forall i :: 0 <= i < |msgs| ==> StrictAt(msgs, i))
  }

  ghost predicate StrictAt(msgs: seq<Message>, i: nat)
    requires i < |msgs|
  {
    && (UseIds(msgs[i].content) != [] ==> i + 1 < |msgs| && !IsAssistant(msgs[i + 1]))
    && multiset(ResultIds(msgs[i].content)) ==
       if IsAssistant(msgs[i]) then multiset{} else multiset(AskedBefore(msgs, i))
  }

  // ---- Lists of ids ------------------------------------------------------------------

  lemma {:induction false} DistinctCount(ids: seq<string>, id: string)
    requires Distinct(ids)
    ensures multiset(ids)[id] == if id in ids then 1 else 0
  {
    if ids != [] {
      var init, x := ids[..|ids| - 1], ids[|ids| - 1];
      assert ids == init + [x];
      DistinctCount(init, id);
    }
  }

  lemma {:induction false} CountDistinct(ids: seq<string>)
    requires forall id :: multiset(ids)[id] <= 1
    ensures Distinct(ids)
  {
    if ids != [] {
      var init, x := ids[..|ids| - 1], ids[|ids| - 1];
      assert ids == init + [x];
      forall id ensures multiset(init)[id] <= 1 {
        assert multiset(ids)[id] <= 1;
      }
      CountDistinct(init);
      assert multiset(ids)[x] <= 1;
      assert x !in multiset(init);
    }
  }

  lemma DistinctConcat(a: seq<string>, b: seq<string>, s: set<string>)
    requires Distinct(a) && Distinct(b)
    requires forall id :: id in a ==> id in s
    requires forall id :: id in b ==> id !in s
    ensures Distinct(a + b)
  {
    forall i, j | 0 <= i < j < |a + b| ensures (a + b)[i] != (a + b)[j] {
      if i < |a| <= j {
        assert a[i] in s && b[j - |a|] !in s;
      }
    }
  }

  lemma {:induction false} UnansweredDistinct(asked: seq<string>, answers: seq<string>)
    requires Distinct(asked)
    ensures Distinct(Unanswered(asked, answers))
  {
    if asked != [] {
      var init := asked[..|asked| - 1];
      UnansweredDistinct(init, answers);
      UnansweredMembers(init, answers);
      forall x | x in Unanswered(init, answers) ensures x != asked[|asked| - 1] {
        assert x in init;
      }
    }
  }

  lemma {:induction false} FreshDistinct(content: seq<Block>, seen: set<string>)
    ensures Distinct(UseIds(FreshUses(content, seen)))
  {
    if content != [] {
      var init, b := content[..|content| - 1], content[|content| - 1];
      FreshDistinct(init, seen);
      FreshAreNew(init, seen);
      assert (FreshUses(init, seen) + [b])[..|FreshUses(init, seen)|] == FreshUses(init, seen);
    }
  }

  lemma {:induction false} AnswersMembers(content: seq<Block>, asked: seq<string>)
    ensures Distinct(ResultIds(AnswersTo(content, asked)))
    ensures forall id :: id in ResultIds(AnswersTo(content, asked)) <==>
                         id in ResultIds(content) && id in asked
  {
    if content != [] {
      var init, b := content[..|content| - 1], content[|content| - 1];
      AnswersMembers(init, asked);
      assert (AnswersTo(init, asked) + [b])[..|AnswersTo(init, asked)|] == AnswersTo(init, asked);
    }
  }

  /** What a message answers and what it leaves open are together what was asked. */
  lemma AnswersSplit(content: seq<Block>, asked: seq<string>)
    requires Distinct(asked)
    ensures multiset(ResultIds(AnswersTo(content, asked))) +
            multiset(Unanswered(asked, ResultIds(content))) == multiset(asked)
  {
    var a, u := ResultIds(AnswersTo(content, asked)), Unanswered(asked, ResultIds(content));
    AnswersMembers(content, asked);
    UnansweredDistinct(asked, ResultIds(content));
    UnansweredMembers(asked, ResultIds(content));
    forall id ensures (multiset(a) + multiset(u))[id] == multiset(asked)[id] {
      DistinctCount(a, id);
      DistinctCount(u, id);
      DistinctCount(asked, id);
    }
  }

  lemma {:induction false} InterruptedIds(ids: seq<string>)
    ensures ResultIds(Interrupted(ids)) == ids && UseIds(Interrupted(ids)) == []
  {
    if ids != [] {
      var n := |ids| - 1;
      InterruptedIds(ids[..n]);
      assert Interrupted(ids)[..n] == Interrupted(ids[..n]);
    }
  }

  lemma {:induction false} NoneOf(content: seq<Block>)
    ensures (forall k :: 0 <= k < |content| ==> !content[k].ToolUse?) ==> UseIds(content) == []
    ensures (forall k :: 0 <= k < |content| ==> !content[k].ToolResult?) ==> ResultIds(content) == []
  {
    if content != [] {
      NoneOf(content[..|content| - 1]);
    }
  }

  lemma EmptyOrMember(ids: seq<string>)
    ensures ids == [] || exists id :: id in ids
  {
    assert ids == [] || ids[0] in ids;
  }

  // ---- Flattened lists ------------------------------------------------------------------

  /** The position of part i in the flattened list. */
  function Start<T>(parts: seq<seq<T>>, i: nat): nat
    requires i <= |parts|
  {
    |Flat(parts, i)|
  }

  lemma {:induction false} FlatGrows<T>(parts: seq<seq<T>>, i: nat, n: nat)
    requires i <= n <= |parts|
    ensures Flat(parts, i) <= Flat(parts, n)
    decreases n
  {
    if i < n {
      FlatGrows(parts, i, n - 1);
    }
  }

  lemma PartPlaced<T>(parts: seq<seq<T>>, i: nat)
    requires i < |parts|
    ensures Start(parts, i + 1) == Start(parts, i) + |parts[i]| <= |Flat(parts, |parts|)|
    ensures forall k :: 0 <= k < |parts[i]| ==> Flat(parts, |parts|)[Start(parts, i) + k] == parts[i][k]
  {
    FlatGrows(parts, i + 1, |parts|);
    var whole := Flat(parts, i) + parts[i];
    assert forall k :: 0 <= k < |parts[i]| ==> whole[Start(parts, i) + k] == parts[i][k];
  }

  lemma {:induction false} PartOf<T>(parts: seq<seq<T>>, n: nat, p: nat) returns (i: nat)
    requires n <= |parts| && p < Start(parts, n)
    ensures i < n && Start(parts, i) <= p < Start(parts, i + 1) <= Start(parts, n)
    ensures Flat(parts, n)[p] == parts[i][p - Start(parts, i)]
  {
    if p < Start(parts, n - 1) {
      i := PartOf(parts, n - 1, p);
    } else {
      i := n - 1;
    }
  }

  lemma {:induction false} StartGrows<T>(parts: seq<seq<T>>, i: nat, n: nat)
    requires i <= n <= |parts|
    requires forall k :: 0 <= k < |parts| ==> |parts[k]| >= 1
    ensures Start(parts, n) >= Start(parts, i) + (n - i)
  {
    if i < n {
      StartGrows(parts, i, n - 1);
    }
  }

  lemma {:induction false} FlatSingles<T>(parts: seq<seq<T>>, list: seq<T>, n: nat)
    requires n <= |parts| == |list|
    requires forall i :: 0 <= i < |parts| ==> parts[i] == [list[i]]
    ensures Flat(parts, n) == list[..n]
  {
    if n > 0 {
      FlatSingles(parts, list, n - 1);
      assert list[..n] == list[..n - 1] + [list[n - 1]];
    }
  }
}
