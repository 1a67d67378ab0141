/** The provider-neutral message model (internal/provider/types.go). */
module Provider {

  datatype Role = RoleUser | RoleAssistant | RoleOther(name: string)

  /** One unit of content. A tool call's arguments are the entries of its JSON object,
      each value in marshalled form. */
  datatype Block =
    | Text(text: string, cachePoint: bool)
    | Thinking(thinking: string, signature: string, cachePoint: bool)
    | ToolUse(useId: string, toolName: string, input: seq<(string, string)>, argsError: string)
    | ToolResult(resultId: string, toolContent: string, isError: bool)
    | Image(path: string, data: string)

  datatype Message = Message(role: Role, content: seq<Block>)

  datatype StopReason = StopUnknown | StopEndTurn | StopToolUse | StopMaxTokens | StopOther(raw: string)

  datatype Usage = Usage(input: nat, output: nat, cacheRead: nat, cacheWrite: nat, reasoning: nat)

  /** A tool call as the loop dispatches it. */
  datatype Call = Call(id: string, name: string, args: seq<(string, string)>, argsError: string)

  datatype Option<+T> = None | Some(value: T)

  function TextMessage(role: Role, text: string): Message {
    Message(role, [Text(text, false)])
  }

  predicate IsAssistant(m: Message) {
    m.role == RoleAssistant
  }

  /** The ids of the tool calls in a content array, in order. */
  function UseIds(content: seq<Block>): (ids: seq<string>)
  {
    if content == [] then [] else
    var init, b := content[..|content| - 1], content[|content| - 1];
    if b.ToolUse? then UseIds(init) + [b.useId] else UseIds(init)
  }

  /** The ids answered by the tool results in a content array, in order. */
  function ResultIds(content: seq<Block>): (ids: seq<string>)
  {
    if content == [] then [] else
    var init, b := content[..|content| - 1], content[|content| - 1];
    if b.ToolResult? then ResultIds(init) + [b.resultId] else ResultIds(init)
  }

  /** Tool calls only in assistant messages, tool results only elsewhere. */
  ghost predicate RoleClean(msgs: seq<Message>) {
    forall i, k :: 0 <= i < |msgs| && 0 <= k < |msgs[i].content| ==>
      (msgs[i].content[k].ToolUse? ==> IsAssistant(msgs[i])) &&
      (msgs[i].content[k].ToolResult? ==> !IsAssistant(msgs[i]))
  }

  lemma OneBlockIds(b: Block)
    ensures UseIds([b]) == (if b.ToolUse? then [b.useId] else [])
    ensures ResultIds([b]) == (if b.ToolResult? then [b.resultId] else [])
  {
    assert [b][..0] == [];
  }

  lemma {:induction false} UseIdsAppend(a: seq<Block>, b: seq<Block>)
    ensures UseIds(a + b) == UseIds(a) + UseIds(b)
  {
    if b == [] {
      assert a + b == a;
    } else {
      var init, l := b[..|b| - 1], b[|b| - 1];
      UseIdsAppend(a, init);
      assert (a + b)[..|a + b| - 1] == a + init;
    }
  }

  lemma {:induction false} ResultIdsAppend(a: seq<Block>, b: seq<Block>)
    ensures ResultIds(a + b) == ResultIds(a) + ResultIds(b)
  {
    if b == [] {
      assert a + b == a;
    } else {
      var init, l := b[..|b| - 1], b[|b| - 1];
      ResultIdsAppend(a, init);
      assert (a + b)[..|a + b| - 1] == a + init;
    }
  }

  predicate IsUse(b: Block, id: string) { b.ToolUse? && b.useId == id }

  predicate IsResult(b: Block, id: string) { b.ToolResult? && b.resultId == id }

  /** One of the first n blocks is a call with the id. */
  predicate UsedIn(content: seq<Block>, n: nat, id: string)
    requires n <= |content|
  {
    exists k :: 0 <= k < n && IsUse(content[k], id)
  }

  /** One of the first n blocks is a result for the id. */
  predicate AnsweredIn(content: seq<Block>, n: nat, id: string)
    requires n <= |content|
  {
    exists k :: 0 <= k < n && IsResult(content[k], id)
  }

  lemma {:induction false} UseIdsMember(content: seq<Block>, n: nat, id: string)
    requires n <= |content|
    ensures id in UseIds(content[..n]) <==> UsedIn(content, n, id)
  {
    if n > 0 {
      UseIdsMember(content, n - 1, id);
      assert content[..n][..n - 1] == content[..n - 1];
      assert IsUse(content[n - 1], id) ==> UsedIn(content, n, id);
    }
  }

  lemma {:induction false} ResultIdsMember(content: seq<Block>, n: nat, id: string)
    requires n <= |content|
    ensures id in ResultIds(content[..n]) <==> AnsweredIn(content, n, id)
  {
    if n > 0 {
      ResultIdsMember(content, n - 1, id);
      assert content[..n][..n - 1] == content[..n - 1];
      assert IsResult(content[n - 1], id) ==> AnsweredIn(content, n, id);
    }
  }
}
