/** Every drop makes progress, whatever the list: the repair may lengthen it, but a drop
    takes away an assistant message, or else one of the messages before the first of them
    (internal/contextmgmt/rounds.go:85-140, internal/contextmgmt/compress.go:299-317). */
module Progress {
  import opened Provider
  import opened Pairing
  import opened PairingSpec
  import opened Rounds

  /** How many assistant messages a list holds. */
  function Assistants(msgs: seq<Message>): nat {
    if msgs == [] then 0 else
    Assistants(msgs[..|msgs| - 1]) + (if IsAssistant(msgs[|msgs| - 1]) then 1 else 0)
  }

  /** How many messages precede the first assistant message. */
  function Lead(msgs: seq<Message>): (n: nat)
    ensures n <= |msgs|
    ensures forall i :: 0 <= i < n ==> !IsAssistant(msgs[i])
    ensures n < |msgs| ==> IsAssistant(msgs[n])
  {
    if msgs == [] || IsAssistant(msgs[0]) then 0 else 1 + Lead(msgs[1..])
  }

  predicate Smaller(a: seq<Message>, b: seq<Message>) {
    Assistants(a) < Assistants(b) || (Assistants(a) == Assistants(b) && Lead(a) < Lead(b))
  }

  lemma {:induction false} AssistantsConcat(a: seq<Message>, b: seq<Message>)
    ensures Assistants(a + b) == Assistants(a) + Assistants(b)
  {
    if b == [] {
      assert a + b == a;
    } else {
      AssistantsConcat(a, b[..|b| - 1]);
      assert (a + b)[..|a + b| - 1] == a + b[..|b| - 1];
    }
  }

  lemma LeadIs(msgs: seq<Message>, n: nat)
    requires n <= |msgs|
    requires forall i :: 0 <= i < n ==> !IsAssistant(msgs[i])
    requires n < |msgs| ==> IsAssistant(msgs[n])
    ensures Lead(msgs) == n
  {
  }

  // ---- The repair neither adds nor removes assistants, and adds nothing before the first ----

  lemma {:induction false} PiecesAssistants(msgs: seq<Message>, n: nat)
    requires n <= |msgs|
    ensures Assistants(Flat(Pieces(msgs), n)) == Assistants(msgs[..n])
  {
    if n > 0 {
      PiecesAssistants(msgs, n - 1);
      AssistantsConcat(Flat(Pieces(msgs), n - 1), Pieces(msgs)[n - 1]);
      PieceAssistants(msgs, n - 1);
      assert msgs[..n][..n - 1] == msgs[..n - 1];
    }
  }

  lemma PieceAssistants(msgs: seq<Message>, i: nat)
    requires i < |msgs|
    ensures Assistants(Piece(msgs, i)) == if IsAssistant(msgs[i]) then 1 else 0
  {
    var c, f := Cleaned(msgs, i), Flush(Abandoned(msgs, i));
    AssistantsConcat([c], f);
    assert [c][..0] == [];
    assert f != [] ==> f[..0] == [];
  }

  /** A message that follows no assistant message yields one message of its own role. */
  lemma LeadPiece(msgs: seq<Message>, i: nat)
    requires i < |msgs| && !IsAssistant(msgs[i]) && (i > 0 ==> !IsAssistant(msgs[i - 1]))
    ensures |Piece(msgs, i)| == 1 && !IsAssistant(Piece(msgs, i)[0])
  {
    assert Due(msgs, i) == [];
    assert Abandoned(msgs, i) == [];
    assert Piece(msgs, i) == [Cleaned(msgs, i)];
  }

  lemma {:induction false} LeadUntouched(msgs: seq<Message>, n: nat)
    requires n <= |msgs| && forall i :: 0 <= i < n ==> !IsAssistant(msgs[i])
    ensures |Flat(Pieces(msgs), n)| == n
    ensures forall p :: 0 <= p < n ==> !IsAssistant(Flat(Pieces(msgs), n)[p])
  {
    if n > 0 {
      LeadUntouched(msgs, n - 1);
      LeadPiece(msgs, n - 1);
      assert Flat(Pieces(msgs), n) == Flat(Pieces(msgs), n - 1) + Piece(msgs, n - 1);
    }
  }

  lemma RepairAssistants(msgs: seq<Message>)
    ensures Assistants(Repair(msgs)) == Assistants(msgs)
  {
    PiecesAssistants(msgs, |msgs|);
    assert msgs[..|msgs|] == msgs;
  }

  lemma FirstAssistant(msgs: seq<Message>, n: nat)
    requires n < |msgs| && IsAssistant(msgs[n]) && |Flat(Pieces(msgs), n)| == n
    ensures n < |Repair(msgs)| && IsAssistant(Repair(msgs)[n])
  {
    PartPlaced(Pieces(msgs), n);
    assert Repair(msgs)[n + 0] == Piece(msgs, n)[0];
  }

  lemma RepairRank(msgs: seq<Message>)
    ensures Assistants(Repair(msgs)) == Assistants(msgs) && Lead(Repair(msgs)) == Lead(msgs)
  {
    RepairAssistants(msgs);
    var n := Lead(msgs);
    LeadUntouched(msgs, n);
    FlatGrows(Pieces(msgs), n, |msgs|);
    if n < |msgs| {
      FirstAssistant(msgs, n);
    }
    LeadIs(Repair(msgs), n);
  }

  // ---- A drop makes the list smaller ------------------------------------------------------

  lemma {:induction false} HasAssistant(msgs: seq<Message>, i: nat)
    requires i < |msgs| && IsAssistant(msgs[i])
    ensures Assistants(msgs) > 0
  {
    if i < |msgs| - 1 {
      HasAssistant(msgs[..|msgs| - 1], i);
    }
  }

  /** Cutting the round at i out of a list. */
  lemma CutSmaller(msgs: seq<Message>, i: nat)
    requires i < |msgs| && forall k :: 0 <= k < i ==> !IsAssistant(msgs[k])
    ensures Smaller(msgs[..i] + msgs[RoundEnd(msgs, i)..], msgs)
  {
    var end := RoundEnd(msgs, i);
    var cut := msgs[..i] + msgs[end..];
    assert msgs == msgs[..i] + msgs[i..end] + msgs[end..];
    AssistantsConcat(msgs[..i] + msgs[i..end], msgs[end..]);
    AssistantsConcat(msgs[..i], msgs[i..end]);
    AssistantsConcat(msgs[..i], msgs[end..]);
    if IsAssistant(msgs[i]) {
      HasAssistant(msgs[i..end], 0);
    } else {
      assert msgs[i..end][..0] == [];
      var n := Lead(msgs);
      assert forall k :: i <= k < |cut| ==> cut[k] == msgs[k + 1];
      LeadIs(cut, n - 1);
    }
  }

  lemma DropsMakeProgress(msgs: seq<Message>)
    ensures DropOldestRound(msgs).Dropped? ==> Smaller(DropOldestRound(msgs).out, msgs)
    ensures DropOldestKeepingSummary(msgs).Dropped? ==> Smaller(DropOldestKeepingSummary(msgs).out, msgs)
    ensures DropOldestRoundPreservingSummary(msgs).Dropped? ==>
              Smaller(DropOldestRoundPreservingSummary(msgs).out, msgs)
  {
    if |RoundsFrom(msgs, 0)| > 1 {
      OldestSmaller(msgs);
      if IsSummary(msgs[0]) {
        SecondSmaller(msgs);
      }
    }
  }

  lemma {:induction false} OldestSmaller(msgs: seq<Message>)
    requires |RoundsFrom(msgs, 0)| > 1
    ensures RoundsFrom(msgs, 0)[0].end <= |msgs| && Smaller(Repair(msgs[RoundsFrom(msgs, 0)[0].end..]), msgs)
  {
    CutSmaller(msgs, 0);
    assert msgs[..0] + msgs[RoundEnd(msgs, 0)..] == msgs[RoundEnd(msgs, 0)..];
    RepairRank(msgs[RoundEnd(msgs, 0)..]);
  }

  lemma {:induction false} SecondSmaller(msgs: seq<Message>)
    requires |RoundsFrom(msgs, 0)| > 1 && IsSummary(msgs[0])
    ensures RoundsFrom(msgs, 0)[1].end <= |msgs| &&
            Smaller(Repair([msgs[0]] + msgs[RoundsFrom(msgs, 0)[1].end..]), msgs)
  {
    CutSmaller(msgs, 1);
    assert msgs[..1] == [msgs[0]];
    assert RoundsFrom(msgs, 0)[1].end == RoundEnd(msgs, 1);
    RepairRank([msgs[0]] + msgs[RoundEnd(msgs, 1)..]);
  }

}
