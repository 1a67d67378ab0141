/** A repaired list seen as a chain of turns: what each message became, and which
    ids are answered synthetically right after it. The normal forms follow
    from how neighbouring turns fit together. */
module PairingTurns {
  import opened Provider
  import opened Pairing
  import opened PairingSpec

  datatype Turn = Turn(msg: Message, left: seq<string>) {
    /** The calls the turn asks. */
    function Asks(): seq<string> { UseIds(msg.content) }
  }

  function DueTo(turns: seq<Turn>, i: nat): seq<string>
    requires i <= |turns|
  {
    if i == 0 then [] else turns[i - 1].Asks()
  }

  function AskedUpTo(turns: seq<Turn>, n: nat): seq<string>
    requires n <= |turns|
  {
    if n == 0 then [] else AskedUpTo(turns, n - 1) + turns[n - 1].Asks()
  }

  /** The turn passes on to the next one the chance to answer its calls. */
  predicate PassesOn(turns: seq<Turn>, i: nat)
    requires i < |turns|
  {
    i + 1 < |turns| && !IsAssistant(turns[i + 1].msg)
  }

  ghost predicate Link(turns: seq<Turn>, i: nat)
    requires i < |turns|
  {
    var t := turns[i];
    && t.msg.content != []
    && (IsAssistant(t.msg) ==>
          ResultIds(t.msg.content) == [] && t.left == if PassesOn(turns, i) then [] else t.Asks())
    && (!IsAssistant(t.msg) ==>
          t.Asks() == [] &&
          multiset(ResultIds(t.msg.content)) + multiset(t.left) == multiset(DueTo(turns, i)))
  }

  ghost predicate Chain(turns: seq<Turn>) {
    && (forall i :: 0 <= i < |turns| ==> Link(turns, i))
    && Distinct(AskedUpTo(turns, |turns|))
  }

  function Parts(turns: seq<Turn>): seq<seq<Message>> {
    seq(|turns|, i requires 0 <= i < |turns| => [turns[i].msg] + Flush(turns[i].left))
  }

  function Out(turns: seq<Turn>): seq<Message> {
    Flat(Parts(turns), |turns|)
  }

  /** The list written for the first n turns. */
  function LaidOut(turns: seq<Turn>, n: nat): seq<Message>
    requires n <= |turns|
  {
    Flat(Parts(turns), n)
  }

  lemma LaidOutStep(turns: seq<Turn>, n: nat)
    requires n < |turns|
    ensures LaidOut(turns, n + 1) == LaidOut(turns, n) + ([turns[n].msg] + Flush(turns[n].left))
  {
  }

  function At(turns: seq<Turn>, i: nat): nat
    requires i <= |turns|
  {
    Start(Parts(turns), i)
  }

  lemma TurnAt(turns: seq<Turn>, i: nat)
    requires i < |turns|
    ensures At(turns, i) < At(turns, i + 1) <= |Out(turns)|
    ensures At(turns, i + 1) == At(turns, i) + (if turns[i].left == [] then 1 else 2)
    ensures Out(turns)[At(turns, i)] == turns[i].msg
    ensures turns[i].left != [] ==>
      Out(turns)[At(turns, i) + 1] == Message(RoleUser, Interrupted(turns[i].left))
  {
    PartPlaced(Parts(turns), i);
    var part := [turns[i].msg] + Flush(turns[i].left);
    assert Parts(turns)[i] == part;
    assert Out(turns)[At(turns, i) + 0] == part[0];
    assert turns[i].left != [] ==> Out(turns)[At(turns, i) + 1] == part[1];
  }

  lemma TurnOf(turns: seq<Turn>, p: nat) returns (i: nat)
    requires p < |Out(turns)|
    ensures i < |turns|
    ensures p == At(turns, i) || (p == At(turns, i) + 1 && turns[i].left != [])
  {
    i := PartOf(Parts(turns), |turns|, p);
    TurnAt(turns, i);
  }

  // ---- Closed ------------------------------------------------------------------------

  lemma AddPart(before: seq<Message>, m: Message, left: seq<string>)
    ensures AllUses(before + ([m] + Flush(left))) == AllUses(before) + UseIds(m.content)
    ensures AllResults(before + ([m] + Flush(left))) == AllResults(before) + ResultIds(m.content) + left
  {
    InterruptedIds(left);
    assert (before + [m])[..|before|] == before;
    if left == [] {
      assert before + ([m] + Flush(left)) == before + [m];
    } else {
      var f := Message(RoleUser, Interrupted(left));
      assert before + ([m] + Flush(left)) == before + [m] + [f];
      assert (before + [m] + [f])[..|before| + 1] == before + [m];
    }
  }

  /** The list written grows by a turn. */
  predicate Extends(before: seq<Message>, t: Turn, after: seq<Message>) {
    after == before + ([t.msg] + Flush(t.left))
  }

  lemma {:induction false} GrowingUses(turns: seq<Turn>, stages: seq<seq<Message>>, n: nat)
    requires n <= |turns| && |stages| == |turns| + 1 && stages[0] == []
    requires forall i :: 0 <= i < |turns| ==> Extends(stages[i], turns[i], stages[i + 1])
    ensures AllUses(stages[n]) == AskedUpTo(turns, n)
  {
    if n > 0 {
      GrowingUses(turns, stages, n - 1);
      assert Extends(stages[n - 1], turns[n - 1], stages[n]);
      AddPart(stages[n - 1], turns[n - 1].msg, turns[n - 1].left);
    }
  }

  lemma {:induction false} GrowingResults(turns: seq<Turn>, stages: seq<seq<Message>>, n: nat)
    requires n <= |turns| && |stages| == |turns| + 1 && stages[0] == []
    requires forall i :: 0 <= i < |turns| ==> Extends(stages[i], turns[i], stages[i + 1])
    ensures AllResults(stages[n]) == ResultsUpTo(turns, n)
  {
    if n > 0 {
      GrowingResults(turns, stages, n - 1);
      assert Extends(stages[n - 1], turns[n - 1], stages[n]);
      AddPart(stages[n - 1], turns[n - 1].msg, turns[n - 1].left);
    }
  }

  /** The list as written before each turn, and after the last. */
  function Stages(turns: seq<Turn>): (stages: seq<seq<Message>>)
    ensures |stages| == |turns| + 1
  {
    seq(|turns| + 1, n requires 0 <= n <= |turns| => LaidOut(turns, n))
  }

  lemma WrittenIds(turns: seq<Turn>)
    ensures AllUses(Out(turns)) == AskedUpTo(turns, |turns|) && AllResults(Out(turns)) == ResultsUpTo(turns, |turns|)
  {
    var stages := Stages(turns);
    StagesEnd(turns);
    forall i | 0 <= i < |turns| ensures Extends(stages[i], turns[i], stages[i + 1]) {
      StageExtends(turns, i);
    }
    GrowingUses(turns, stages, |turns|);
    GrowingResults(turns, stages, |turns|);
  }

  lemma StageExtends(turns: seq<Turn>, i: nat)
    requires i < |turns|
    ensures Extends(Stages(turns)[i], turns[i], Stages(turns)[i + 1])
  {
    LaidOutStep(turns, i);
  }

  lemma StagesEnd(turns: seq<Turn>)
    ensures Stages(turns)[0] == [] && Stages(turns)[|turns|] == Out(turns)
  {
  }

  /** The ids asked before turn n that only turn n can still answer. */
  function Open(turns: seq<Turn>, n: nat): seq<string>
    requires n <= |turns|
  {
    if n > 0 && PassesOn(turns, n - 1) then DueTo(turns, n) else []
  }

  /** What turn i answers and leaves, and what it hands on, is what was open and what it asks. */
  lemma OpenStep(turns: seq<Turn>, i: nat)
    requires i < |turns| && Link(turns, i) && (i > 0 ==> Link(turns, i - 1))
    ensures multiset(ResultIds(turns[i].msg.content)) + multiset(turns[i].left) + multiset(Open(turns, i + 1)) ==
            multiset(Open(turns, i)) + multiset(turns[i].Asks())
  {
  }

  function ResultsUpTo(turns: seq<Turn>, n: nat): seq<string>
    requires n <= |turns|
  {
    if n == 0 then [] else ResultsUpTo(turns, n - 1) + ResultIds(turns[n - 1].msg.content) + turns[n - 1].left
  }

  /** Results written and answers still open are together the calls written. */
  lemma {:induction false} Balanced(turns: seq<Turn>, n: nat)
    requires n <= |turns| && forall i :: 0 <= i < |turns| ==> Link(turns, i)
    ensures multiset(ResultsUpTo(turns, n)) + multiset(Open(turns, n)) == multiset(AskedUpTo(turns, n))
  {
    if n > 0 {
      var t := turns[n - 1];
      Balanced(turns, n - 1);
      OpenStep(turns, n - 1);
      BalanceSum(ResultsUpTo(turns, n - 1), Open(turns, n - 1), AskedUpTo(turns, n - 1),
                 ResultIds(t.msg.content), t.left, Open(turns, n), t.Asks());
    }
  }

  lemma BalanceSum(results: seq<string>, open: seq<string>, uses: seq<string>,
                   answered: seq<string>, left: seq<string>, open': seq<string>, asked: seq<string>)
    requires multiset(results) + multiset(open) == multiset(uses)
    requires multiset(answered) + multiset(left) + multiset(open') == multiset(open) + multiset(asked)
    ensures multiset(results + answered + left) + multiset(open') == multiset(uses + asked)
  {
    assert multiset(results + answered + left) == multiset(results) + multiset(answered) + multiset(left);
    assert multiset(uses + asked) == multiset(uses) + multiset(asked);
    forall id
      ensures (multiset(results + answered + left) + multiset(open'))[id] == multiset(uses + asked)[id]
    {
      assert (multiset(results) + multiset(open))[id] == multiset(uses)[id];
      assert (multiset(answered) + multiset(left) + multiset(open'))[id] == (multiset(open) + multiset(asked))[id];
    }
  }

  lemma WindowCovers(out: seq<Message>, p: nat, q: nat, id: string)
    requires p <= q <= p + 1 && q < |out| && !IsAssistant(out[p]) && !IsAssistant(out[q])
    requires id in ResultIds(out[q].content)
    ensures id in ResultIds(Window(out, p))
  {
    if p + 1 < |out| && !IsAssistant(out[p + 1]) {
      ResultIdsAppend(out[p].content, out[p + 1].content);
    }
  }

  lemma Answered(turns: seq<Turn>, i: nat, id: string)
    requires Chain(turns) && i < |turns| && id in turns[i].Asks()
    ensures id in ResultIds(Window(Out(turns), At(turns, i) + 1))
  {
    TurnAt(turns, i);
    assert Link(turns, i);
    if PassesOn(turns, i) {
      AnsweredNext(turns, i + 1, id);
    } else {
      InterruptedIds(turns[i].left);
      WindowCovers(Out(turns), At(turns, i) + 1, At(turns, i) + 1, id);
    }
  }

  lemma AnsweredNext(turns: seq<Turn>, j: nat, id: string)
    requires j < |turns| && Link(turns, j) && !IsAssistant(turns[j].msg) && id in DueTo(turns, j)
    ensures id in ResultIds(Window(Out(turns), At(turns, j)))
  {
    TurnAt(turns, j);
    var p := At(turns, j);
    assert id in multiset(DueTo(turns, j));
    if id in multiset(ResultIds(turns[j].msg.content)) {
      WindowCovers(Out(turns), p, p, id);
    } else {
      InterruptedIds(turns[j].left);
      WindowCovers(Out(turns), p, p + 1, id);
    }
  }

  lemma AnsweredAt(turns: seq<Turn>, p: nat)
    requires Chain(turns) && p < |Out(turns)|
    ensures Out(turns)[p].content != []
    ensures forall id :: id in UseIds(Out(turns)[p].content) ==> id in ResultIds(Window(Out(turns), p + 1))
  {
    var i := TurnOf(turns, p);
    TurnAt(turns, i);
    assert Link(turns, i);
    if p == At(turns, i) {
      forall id | id in UseIds(Out(turns)[p].content) ensures id in ResultIds(Window(Out(turns), p + 1)) {
        Answered(turns, i, id);
      }
    } else {
      InterruptedIds(turns[i].left);
    }
  }

  lemma OutClosed(turns: seq<Turn>)
    requires Chain(turns)
    ensures Closed(Out(turns))
  {
    WrittenIds(turns);
    Balanced(turns, |turns|);
    forall p | 0 <= p < |Out(turns)|
      ensures Out(turns)[p].content != []
      ensures forall id :: id in UseIds(Out(turns)[p].content) ==> id in ResultIds(Window(Out(turns), p + 1))
    {
      AnsweredAt(turns, p);
    }
  }

  // ---- Strict ----------------------------------------------------------------------------

  /** No turn that gets the chance to answer the calls before it leaves one open. */
  predicate SettledTurns(turns: seq<Turn>) {
    forall i :: 0 <= i < |turns| && !IsAssistant(turns[i].msg) ==> turns[i].left == []
  }

  /** Right before a non-assistant turn stand the calls due to it. */
  lemma DueBefore(turns: seq<Turn>, i: nat)
    requires i < |turns| && !IsAssistant(turns[i].msg) && (i > 0 ==> Link(turns, i - 1))
    ensures At(turns, i) < |Out(turns)| && AskedBefore(Out(turns), At(turns, i)) == DueTo(turns, i)
  {
    TurnAt(turns, i);
    if i > 0 {
      JustBefore(turns, i);
      InterruptedIds(turns[i - 1].left);
    }
  }

  lemma JustBefore(turns: seq<Turn>, i: nat)
    requires 0 < i < |turns|
    ensures 0 < At(turns, i) <= |Out(turns)|
    ensures Out(turns)[At(turns, i) - 1] ==
            if turns[i - 1].left == [] then turns[i - 1].msg else Message(RoleUser, Interrupted(turns[i - 1].left))
  {
    TurnAt(turns, i - 1);
  }

  lemma AssistantStrict(turns: seq<Turn>, i: nat, p: nat)
    requires Chain(turns) && i < |turns| && IsAssistant(turns[i].msg) && p < |Out(turns)|
    requires p == At(turns, i) || (p == At(turns, i) + 1 && turns[i].left != [])
    ensures StrictAt(Out(turns), p)
  {
    TurnAt(turns, i);
    assert Link(turns, i);
    InterruptedIds(turns[i].left);
    if PassesOn(turns, i) {
      TurnAt(turns, i + 1);
    }
  }

  lemma OutStrict(turns: seq<Turn>)
    requires Chain(turns) && SettledTurns(turns)
    ensures Strict(Out(turns))
  {
    OutClosed(turns);
    forall p | 0 <= p < |Out(turns)| ensures StrictAt(Out(turns), p) {
      var i := TurnOf(turns, p);
      if IsAssistant(turns[i].msg) {
        AssistantStrict(turns, i, p);
      } else {
        TurnAt(turns, i);
        assert Link(turns, i);
        DueBefore(turns, i);
      }
    }
  }

  lemma StrictOutSettled(turns: seq<Turn>)
    requires Chain(turns) && Strict(Out(turns))
    ensures SettledTurns(turns)
  {
    forall i | 0 <= i < |turns| && !IsAssistant(turns[i].msg) ensures turns[i].left == [] {
      assert Link(turns, i);
      DueBefore(turns, i);
      assert StrictAt(Out(turns), At(turns, i));
      var results, left := multiset(ResultIds(Out(turns)[At(turns, i)].content)), multiset(turns[i].left);
      TurnAt(turns, i);
      assert results + left == results;
      assert |left| == 0;
    }
  }
}
