/** Where a round ends in any list, counted over the blocks
    (internal/contextmgmt/rounds.go:26-88). */
module RoundEnds {
  import opened Provider
  import opened Rounds

  /** The distinct non-empty ids the blocks of a message call with. */
  function CallIds(m: Message): set<string> {
    set k: nat | k < |m.content| && m.content[k].ToolUse? && m.content[k].useId != "" :: m.content[k].useId
  }

  predicate HasResult(m: Message) {
    exists k :: 0 <= k < |m.content| && m.content[k].ToolResult?
  }

  /** The first n blocks of a content array that answer a wanted id. */
  function AnsweringBlocks(content: seq<Block>, n: nat, want: set<string>): set<nat>
    requires n <= |content|
  {
    set k: nat | k < n && content[k].ToolResult? && content[k].resultId in want
  }

  /** How many blocks of messages i to j answer a wanted id. */
  function AnswersAmong(msgs: seq<Message>, i: nat, j: nat, want: set<string>): nat
    requires i <= j <= |msgs|
    decreases j
  {
    if i == j then 0
    else AnswersAmong(msgs, i, j - 1, want) + |AnsweringBlocks(msgs[j - 1].content, |msgs[j - 1].content|, want)|
  }

  lemma {:induction false} CallIdsAre(m: Message)
    ensures ToolUseIds(m) == CallIds(m)
  {
    assert m.content[..|m.content|] == m.content;
    forall id ensures id in ToolUseIds(m) <==> id in CallIds(m) {
      UseIdsMember(m.content, |m.content|, id);
    }
  }

  lemma {:induction false} AnswersCounted(content: seq<Block>, n: nat, want: set<string>)
    requires n <= |content|
    ensures CountAnswered(content[..n], want) == |AnsweringBlocks(content, n, want)|
  {
    if n > 0 {
      AnswersCounted(content, n - 1, want);
      assert content[..n][..n - 1] == content[..n - 1];
      var before, b := AnsweringBlocks(content, n - 1, want), content[n - 1];
      assert AnsweringBlocks(content, n, want) ==
             if b.ToolResult? && b.resultId in want then before + {n - 1} else before;
    }
  }

  /** Message j carries results, and calls of message i are still open before it. */
  ghost predicate GoesOn(msgs: seq<Message>, i: nat, j: nat)
    requires i < j < |msgs|
  {
    HasResult(msgs[j]) && AnswersAmong(msgs, i + 1, j, CallIds(msgs[i])) < |CallIds(msgs[i])|
  }

  /** `end` is the first place behind message i where the round does not go on. */
  ghost predicate EndsRound(msgs: seq<Message>, i: nat, end: nat) {
    && i < end <= |msgs|
    && (forall j :: i < j < end ==> GoesOn(msgs, i, j))
    && (end < |msgs| ==> !GoesOn(msgs, i, end))
  }

  /** Main result: in any list the round of an assistant message reaches exactly as far as
      result messages follow and its calls are not all answered; every other message is a
      round by itself. */
  lemma RoundReaches(msgs: seq<Message>, i: nat, end: nat)
    requires i < |msgs|
    ensures end == RoundEnd(msgs, i) <==> if IsAssistant(msgs[i]) then EndsRound(msgs, i, end) else end == i + 1
  {
    CallIdsAre(msgs[i]);
    if IsAssistant(msgs[i]) {
      ScanReaches(msgs, i, i + 1);
      if EndsRound(msgs, i, end) {
        OneEnd(msgs, i, end, RoundEnd(msgs, i));
      }
    }
  }

  lemma OneEnd(msgs: seq<Message>, i: nat, a: nat, b: nat)
    requires EndsRound(msgs, i, a) && EndsRound(msgs, i, b)
    ensures a == b
  {
  }

  lemma {:induction false} ScanReaches(msgs: seq<Message>, i: nat, j: nat)
    requires i < j <= |msgs| && forall k :: i < k < j ==> GoesOn(msgs, i, k)
    ensures EndsRound(msgs, i, ScanEnd(msgs, j, AnswersAmong(msgs, i + 1, j, CallIds(msgs[i])), CallIds(msgs[i])))
    decreases |msgs| - j
  {
    ScanNext(msgs, i, j);
    if j < |msgs| && GoesOn(msgs, i, j) {
      ScanReaches(msgs, i, j + 1);
    }
  }

  lemma ScanNext(msgs: seq<Message>, i: nat, j: nat)
    requires i < j <= |msgs|
    ensures var want := CallIds(msgs[i]);
            ScanEnd(msgs, j, AnswersAmong(msgs, i + 1, j, want), want) ==
            if j < |msgs| && GoesOn(msgs, i, j) then ScanEnd(msgs, j + 1, AnswersAmong(msgs, i + 1, j + 1, want), want)
            else j
  {
    if j < |msgs| {
      assert msgs[j].content[..|msgs[j].content|] == msgs[j].content;
      AnswersCounted(msgs[j].content, |msgs[j].content|, CallIds(msgs[i]));
    }
  }
}
