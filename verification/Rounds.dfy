/** Cut-safe rounds and the dropping of rounds (internal/contextmgmt/rounds.go). */
module Rounds {
  import opened Provider
  import opened Pairing
  import opened PairingSpec
  import opened PairingProperties

  datatype Round = Round(start: nat, end: nat)

  // ---- Specification -------------------------------------------------------------------

  function ToolUseIds(m: Message): set<string> {
    set id | id in UseIds(m.content) && id != ""
  }

  predicate IsToolResultMsg(m: Message) {
    exists k :: 0 <= k < |m.content| && m.content[k].ToolResult?
  }

  function CountAnswered(content: seq<Block>, want: set<string>): nat {
    if content == [] then 0 else
    var init, b := content[..|content| - 1], content[|content| - 1];
    CountAnswered(init, want) + (if b.ToolResult? && b.resultId in want then 1 else 0)
  }

  /** Where the run of result messages from j on ends that answers the wanted ids. */
  function ScanEnd(msgs: seq<Message>, j: nat, answered: nat, want: set<string>): (end: nat)
    requires j <= |msgs|
    ensures j <= end <= |msgs|
    decreases |msgs| - j
  {
    if j == |msgs| || answered >= |want| || !IsToolResultMsg(msgs[j]) then j
    else ScanEnd(msgs, j + 1, answered + CountAnswered(msgs[j].content, want), want)
  }

  /** The end of the round that starts at message i. */
  function RoundEnd(msgs: seq<Message>, i: nat): (end: nat)
    requires i < |msgs|
    ensures i < end <= |msgs|
  {
    if IsAssistant(msgs[i]) then ScanEnd(msgs, i + 1, 0, ToolUseIds(msgs[i])) else i + 1
  }

  function RoundsFrom(msgs: seq<Message>, i: nat): (rounds: seq<Round>)
    requires i <= |msgs|
    ensures forall k :: 0 <= k < |rounds| ==> rounds[k].start < rounds[k].end <= |msgs|
    decreases |msgs| - i
  {
    if i == |msgs| then [] else
    var end := RoundEnd(msgs, i);
    [Round(i, end)] + RoundsFrom(msgs, end)
  }

  // ---- The source's loops ----------------------------------------------------------------

  method CollectToolUseIds(m: Message) returns (ids: set<string>)
    ensures ids == ToolUseIds(m)
  {
    ids := {};
    for k := 0 to |m.content|
      invariant ids == set id | id in UseIds(m.content[..k]) && id != ""
    {
      assert m.content[..k + 1][..k] == m.content[..k];
      if m.content[k].ToolUse? && m.content[k].useId != "" {
        ids := ids + {m.content[k].useId};
      }
    }
    assert m.content[..|m.content|] == m.content;
  }

  method CountAnswers(m: Message, want: set<string>) returns (n: nat)
    ensures n == CountAnswered(m.content, want)
  {
    n := 0;
    for k := 0 to |m.content|
      invariant n == CountAnswered(m.content[..k], want)
    {
      assert m.content[..k + 1][..k] == m.content[..k];
      if m.content[k].ToolResult? && m.content[k].resultId in want {
        n := n + 1;
      }
    }
    assert m.content[..|m.content|] == m.content;
  }

  method GroupRounds(msgs: seq<Message>) returns (rounds: seq<Round>)
    ensures rounds == RoundsFrom(msgs, 0)
  {
    rounds := [];
    var i: nat := 0;
    while i < |msgs|
      invariant i <= |msgs|
      invariant RoundsFrom(msgs, 0) == rounds + RoundsFrom(msgs, i)
    {
      var end := FindEnd(msgs, i);
      assert RoundsFrom(msgs, i) == [Round(i, end)] + RoundsFrom(msgs, end);
      rounds := rounds + [Round(i, end)];
      i := end;
    }
  }

  /** The inner loop of the scan: take result messages until the calls are answered. */
  method FindEnd(msgs: seq<Message>, i: nat) returns (end: nat)
    requires i < |msgs|
    ensures end == RoundEnd(msgs, i)
  {
    end := i + 1;
    if IsAssistant(msgs[i]) {
      var ids := CollectToolUseIds(msgs[i]);
      if |ids| > 0 {
        var answered: nat := 0;
        while end < |msgs| && answered < |ids| && IsToolResultMsg(msgs[end])
          invariant i < end <= |msgs|
          invariant ScanEnd(msgs, i + 1, 0, ids) == ScanEnd(msgs, end, answered, ids)
        {
          var n := CountAnswers(msgs[end], ids);
          answered := answered + n;
          end := end + 1;
        }
      }
    }
  }

  // ---- Dropping rounds ---------------------------------------------------------------------

  const SUMMARY_PREFIX := "[Earlier conversation summarized]\n"

  function SummaryMessage(summary: string): Message {
    TextMessage(RoleUser, SUMMARY_PREFIX + summary)
  }

  predicate IsSummary(m: Message) {
    m.role == RoleUser && m.content != [] && m.content[0].Text? && SUMMARY_PREFIX <= m.content[0].text
  }

  datatype Drop = Dropped(out: seq<Message>) | Refused

  function DropOldestRound(msgs: seq<Message>): Drop {
    var rounds := RoundsFrom(msgs, 0);
    if |rounds| <= 1 then Refused
    else Dropped(Repair(msgs[rounds[0].end..]))
  }

  function DropOldestKeepingSummary(msgs: seq<Message>): Drop {
    var rounds := RoundsFrom(msgs, 0);
    if |rounds| <= 1 || !IsSummary(msgs[0]) then Refused
    else Dropped(Repair([msgs[0]] + msgs[rounds[1].end..]))
  }

  function DropOldestRoundPreservingSummary(msgs: seq<Message>): Drop {
    var rounds := RoundsFrom(msgs, 0);
    if |rounds| <= 1 then Refused
    else if IsSummary(msgs[0]) then
      if |rounds| <= 2 then Refused else Dropped(Repair([msgs[0]] + msgs[rounds[1].end..]))
    else Dropped(Repair(msgs[rounds[0].end..]))
  }
}
