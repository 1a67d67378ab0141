/** Size estimates of a message list (internal/contextmgmt/compress.go:30-143). */
module Budget {
  import opened Provider

  const IMAGE_REF_BYTES := 4000
  const PER_KEY_OVERHEAD := 8

  // ---- Bytes --------------------------------------------------------------------------

  /** UTF-8 length of a character. */
  function CharBytes(c: char): nat {
    var code := c as int;
    if code < 0x80 then 1 else if code < 0x800 then 2 else if code < 0x1_0000 then 3 else 4
  }

  function ByteLen(s: string): nat {
    if s == [] then 0 else ByteLen(s[..|s| - 1]) + CharBytes(s[|s| - 1])
  }

  function InputBytes(input: seq<(string, string)>): nat {
    if input == [] then 0 else
    var e := input[|input| - 1];
    InputBytes(input[..|input| - 1]) + ByteLen(e.0) + PER_KEY_OVERHEAD + ByteLen(e.1)
  }

  function BlockBytes(b: Block): nat {
    match b
    case Text(text, _) => ByteLen(text)
    case Thinking(thinking, _, _) => ByteLen(thinking)
    case ToolUse(_, name, input, argsError) => ByteLen(name) + ByteLen(argsError) + InputBytes(input)
    case ToolResult(_, content, _) => ByteLen(content)
    case Image(_, data) => if data != "" then ByteLen(data) else IMAGE_REF_BYTES
  }

  function ContentBytes(content: seq<Block>): nat {
    if content == [] then 0 else
    ContentBytes(content[..|content| - 1]) + BlockBytes(content[|content| - 1])
  }

  /** The serialized size of a list; it doubles as the compression cache's fingerprint. */
  function Bytes(msgs: seq<Message>): nat {
    if msgs == [] then 0 else
    Bytes(msgs[..|msgs| - 1]) + ContentBytes(msgs[|msgs| - 1].content)
  }

  /** The fingerprint is additive, so coverage can be advanced by the dropped part alone. */
  lemma {:induction false} BytesConcat(a: seq<Message>, b: seq<Message>)
    ensures Bytes(a + b) == Bytes(a) + Bytes(b)
  {
    if b == [] {
      assert a + b == a;
    } else {
      BytesConcat(a, b[..|b| - 1]);
      assert (a + b)[..|a + b| - 1] == a + b[..|b| - 1];
    }
  }

  method MeasureBytes(msgs: seq<Message>) returns (total: nat)
    ensures total == Bytes(msgs)
  {
    total := 0;
    for i := 0 to |msgs|
      invariant total == Bytes(msgs[..i])
    {
      assert msgs[..i + 1][..i] == msgs[..i];
      var content := msgs[i].content;
      for k := 0 to |content|
        invariant total == Bytes(msgs[..i]) + ContentBytes(content[..k])
      {
        assert content[..k + 1][..k] == content[..k];
        total := total + BlockBytes(content[k]);
      }
      assert content[..|content|] == content;
    }
    assert msgs[..|msgs|] == msgs;
  }

  // ---- Tokens -------------------------------------------------------------------------

  function AsciiCount(s: string): (n: nat)
    ensures n <= |s|
  {
    if s == [] then 0 else
    AsciiCount(s[..|s| - 1]) + (if s[|s| - 1] as int < 0x80 then 1 else 0)
  }

  datatype Count = Count(ascii: nat, nonAscii: nat) {
    function Add(s: string): Count {
      Count(ascii + AsciiCount(s), nonAscii + |s| - AsciiCount(s))
    }

    function Tokens(): nat {
      ascii / 4 + nonAscii
    }
  }

  function CountInput(c: Count, input: seq<(string, string)>): Count {
    if input == [] then c else
    var e := input[|input| - 1];
    var key := CountInput(c, input[..|input| - 1]).Add(e.0);
    key.(ascii := key.ascii + PER_KEY_OVERHEAD).Add(e.1)
  }

  function CountBlock(c: Count, b: Block): Count {
    match b
    case Text(text, _) => c.Add(text)
    case Thinking(thinking, _, _) => c.Add(thinking)
    case ToolUse(_, name, input, argsError) => CountInput(c.Add(name).Add(argsError), input)
    case ToolResult(_, content, _) => c.Add(content)
    case Image(_, data) => c.(ascii := c.ascii + if data != "" then ByteLen(data) else IMAGE_REF_BYTES)
  }

  function CountContent(c: Count, content: seq<Block>): Count {
    if content == [] then c else
    CountBlock(CountContent(c, content[..|content| - 1]), content[|content| - 1])
  }

  function CountList(msgs: seq<Message>): Count {
    if msgs == [] then Count(0, 0) else
    CountContent(CountList(msgs[..|msgs| - 1]), msgs[|msgs| - 1].content)
  }

  /** The token estimate of a list. */
  function Tokens(msgs: seq<Message>): nat {
    CountList(msgs).Tokens()
  }

  class TokenCounter {
    var ascii: nat
    var nonAscii: nat

    function Value(): Count
      reads this
    {
      Count(ascii, nonAscii)
    }

    constructor ()
      ensures Value() == Count(0, 0)
    {
      ascii, nonAscii := 0, 0;
    }

    method Add(s: string)
      modifies this
      ensures Value() == old(Value()).Add(s)
    {
      for i := 0 to |s|
        invariant ascii == old(ascii) + AsciiCount(s[..i])
        invariant nonAscii == old(nonAscii) + i - AsciiCount(s[..i])
      {
        assert s[..i + 1][..i] == s[..i];
        if s[i] as int < 0x80 {
          ascii := ascii + 1;
        } else {
          nonAscii := nonAscii + 1;
        }
      }
      assert s[..|s|] == s;
    }

    method AddBlock(b: Block)
      modifies this
      ensures Value() == CountBlock(old(Value()), b)
    {
      match b
      case Text(text, _) => Add(text);
      case Thinking(thinking, _, _) => Add(thinking);
      case ToolUse(_, name, input, argsError) =>
        Add(name);
        Add(argsError);
        ghost var c := Value();
        for i := 0 to |input|
          invariant Value() == CountInput(c, input[..i])
        {
          assert input[..i + 1][..i] == input[..i];
          Add(input[i].0);
          ascii := ascii + PER_KEY_OVERHEAD;
          Add(input[i].1);
        }
        assert input[..|input|] == input;
      case ToolResult(_, content, _) => Add(content);
      case Image(_, data) =>
        ascii := ascii + if data != "" then ByteLen(data) else IMAGE_REF_BYTES;
    }
  }

  method EstimateTokens(msgs: seq<Message>) returns (tokens: nat)
    ensures tokens == Tokens(msgs)
  {
    var c := new TokenCounter();
    for i := 0 to |msgs|
      invariant fresh(c) && c.Value() == CountList(msgs[..i])
    {
      assert msgs[..i + 1][..i] == msgs[..i];
      var content := msgs[i].content;
      for k := 0 to |content|
        invariant fresh(c) && c.Value() == CountContent(CountList(msgs[..i]), content[..k])
      {
        assert content[..k + 1][..k] == content[..k];
        c.AddBlock(content[k]);
      }
      assert content[..|content|] == content;
    }
    assert msgs[..|msgs|] == msgs;
    tokens := c.Value().Tokens();
  }
}
