/** What the two size estimates measure (internal/contextmgmt/compress.go:30-143). */
module BudgetProperties {
  import opened Provider
  import opened Budget

  // ---- Characters and bytes ------------------------------------------------------------

  /** The UTF-8 encoding of a character (RFC 3629, section 3). */
  function Utf8Char(c: char): seq<int> {
    var code := c as int;
    if code <= 0x7F then [code]
    else if code <= 0x7FF then [0xC0 + code / 64, 0x80 + code % 64]
    else if code <= 0xFFFF then [0xE0 + code / 4096, 0x80 + code / 64 % 64, 0x80 + code % 64]
    else [0xF0 + code / 262144, 0x80 + code / 4096 % 64, 0x80 + code / 64 % 64, 0x80 + code % 64]
  }

  function Utf8(s: string): seq<int> {
    if s == [] then [] else Utf8(s[..|s| - 1]) + Utf8Char(s[|s| - 1])
  }

  /** Main result: the byte length is that of the UTF-8 encoding. */
  lemma {:induction false} BytesAreUtf8(s: string)
    ensures ByteLen(s) == |Utf8(s)|
  {
    if s != [] {
      BytesAreUtf8(s[..|s| - 1]);
    }
  }

  lemma {:induction false} BytesJoin(a: string, b: string)
    ensures ByteLen(a + b) == ByteLen(a) + ByteLen(b)
  {
    if b == [] {
      assert a + b == a;
    } else {
      BytesJoin(a, b[..|b| - 1]);
      assert (a + b)[..|a + b| - 1] == a + b[..|b| - 1];
    }
  }

  /** The count of ASCII characters is the number of positions that hold one. */
  lemma {:induction false} AsciiAre(s: string)
    ensures AsciiCount(s) == |set k: nat | k < |s| && s[k] as int < 128|
  {
    var here := set k: nat | k < |s| && s[k] as int < 128;
    if s == [] {
      assert here == {};
    } else {
      var front, n := s[..|s| - 1], |s| - 1;
      AsciiAre(front);
      var before := set k: nat | k < |front| && front[k] as int < 128;
      assert forall k: nat :: k in here <==> k in before || (k == n && s[n] as int < 128);
      assert here == if s[n] as int < 128 then before + {n} else before;
    }
  }

  lemma {:induction false} AsciiJoin(a: string, b: string)
    ensures AsciiCount(a + b) == AsciiCount(a) + AsciiCount(b)
  {
    if b == [] {
      assert a + b == a;
    } else {
      AsciiJoin(a, b[..|b| - 1]);
      assert (a + b)[..|a + b| - 1] == a + b[..|b| - 1];
    }
  }

  // ---- What is measured --------------------------------------------------------------------

  function InputText(input: seq<(string, string)>): string {
    if input == [] then "" else
    InputText(input[..|input| - 1]) + input[|input| - 1].0 + input[|input| - 1].1
  }

  /** All text a block puts into a request. */
  function TextOf(b: Block): string {
    match b
    case Text(text, _) => text
    case Thinking(thinking, _, _) => thinking
    case ToolUse(_, name, input, argsError) => name + argsError + InputText(input)
    case ToolResult(_, content, _) => content
    case Image(_, data) => data
  }

  /** What is charged besides text: the syntax of each argument, and an image that is still a
      reference. */
  function Overhead(b: Block): nat {
    match b
    case ToolUse(_, _, input, _) => 8 * |input|
    case Image(_, data) => if data == "" then 4000 else 0
    case _ => 0
  }

  function ContentText(content: seq<Block>): string {
    if content == [] then "" else ContentText(content[..|content| - 1]) + TextOf(content[|content| - 1])
  }

  function ContentOverhead(content: seq<Block>): nat {
    if content == [] then 0 else ContentOverhead(content[..|content| - 1]) + Overhead(content[|content| - 1])
  }

  function AllText(msgs: seq<Message>): string {
    if msgs == [] then "" else AllText(msgs[..|msgs| - 1]) + ContentText(msgs[|msgs| - 1].content)
  }

  function AllOverhead(msgs: seq<Message>): nat {
    if msgs == [] then 0 else AllOverhead(msgs[..|msgs| - 1]) + ContentOverhead(msgs[|msgs| - 1].content)
  }

  // ---- The fingerprint ----------------------------------------------------------------------

  lemma {:induction false} InputMeasured(input: seq<(string, string)>)
    ensures InputBytes(input) == ByteLen(InputText(input)) + 8 * |input|
  {
    if input != [] {
      var front, e := input[..|input| - 1], input[|input| - 1];
      InputMeasured(front);
      BytesJoin(InputText(front), e.0);
      BytesJoin(InputText(front) + e.0, e.1);
    }
  }

  lemma BlockMeasured(b: Block)
    ensures BlockBytes(b) == ByteLen(TextOf(b)) + Overhead(b)
  {
    if b.ToolUse? {
      InputMeasured(b.input);
      BytesJoin(b.toolName, b.argsError);
      BytesJoin(b.toolName + b.argsError, InputText(b.input));
    }
  }

  lemma {:induction false} ContentMeasured(content: seq<Block>)
    ensures ContentBytes(content) == ByteLen(ContentText(content)) + ContentOverhead(content)
  {
    if content != [] {
      var front := content[..|content| - 1];
      ContentMeasured(front);
      BlockMeasured(content[|content| - 1]);
      BytesJoin(ContentText(front), TextOf(content[|content| - 1]));
    }
  }

  /** Main result: the fingerprint of a list is the length of the UTF-8 encoding of all its
      text, and the overhead. */
  lemma {:induction false} FingerprintMeasures(msgs: seq<Message>)
    ensures Bytes(msgs) == |Utf8(AllText(msgs))| + AllOverhead(msgs)
  {
    BytesAreUtf8(AllText(msgs));
    if msgs != [] {
      var front, content := msgs[..|msgs| - 1], msgs[|msgs| - 1].content;
      FingerprintMeasures(front);
      BytesAreUtf8(AllText(front));
      ContentMeasured(content);
      BytesJoin(AllText(front), ContentText(content));
    }
  }

  // ---- The token estimate ---------------------------------------------------------------------

  /** Images are charged by bytes, as if they were ASCII. */
  function Charged(b: Block): string {
    if b.Image? then "" else TextOf(b)
  }

  /** Everything charged by the byte: the overhead, and images that are there. */
  function PlainOf(b: Block): nat {
    Overhead(b) + if b.Image? then |Utf8(b.data)| else 0
  }

  function ContentCharged(content: seq<Block>): string {
    if content == [] then "" else ContentCharged(content[..|content| - 1]) + Charged(content[|content| - 1])
  }

  function ContentPlain(content: seq<Block>): nat {
    if content == [] then 0 else ContentPlain(content[..|content| - 1]) + PlainOf(content[|content| - 1])
  }

  function AllCharged(msgs: seq<Message>): string {
    if msgs == [] then "" else AllCharged(msgs[..|msgs| - 1]) + ContentCharged(msgs[|msgs| - 1].content)
  }

  function AllPlain(msgs: seq<Message>): nat {
    if msgs == [] then 0 else AllPlain(msgs[..|msgs| - 1]) + ContentPlain(msgs[|msgs| - 1].content)
  }

  /** Counting a text and some bytes that are charged like ASCII. */
  function Grown(c: Count, text: string, plain: nat): Count {
    Count(c.ascii + AsciiCount(text) + plain, c.nonAscii + |text| - AsciiCount(text))
  }

  lemma GrownTwice(c: Count, a: string, m: nat, b: string, n: nat)
    ensures Grown(Grown(c, a, m), b, n) == Grown(c, a + b, m + n)
  {
    AsciiJoin(a, b);
  }

  lemma JoinGrown(c: Count, was: Count, a: string, m: nat, now: Count, b: string, n: nat, text: string, plain: nat)
    requires was == Grown(c, a, m) && now == Grown(was, b, n) && text == a + b && plain == m + n
    ensures now == Grown(c, text, plain)
  {
    AsciiJoin(a, b);
  }

  lemma {:induction false} InputCounted(c: Count, input: seq<(string, string)>)
    ensures CountInput(c, input) == Grown(c, InputText(input), 8 * |input|)
  {
    if input != [] {
      var front, e := input[..|input| - 1], input[|input| - 1];
      InputCounted(c, front);
      AsciiJoin(InputText(front), e.0);
      AsciiJoin(InputText(front) + e.0, e.1);
    }
  }

  lemma AddIsGrown(c: Count, s: string)
    ensures c.Add(s) == Grown(c, s, 0)
  {
  }

  lemma CallCounted(c: Count, name: string, argsError: string, input: seq<(string, string)>)
    ensures CountInput(c.Add(name).Add(argsError), input) ==
            Grown(c, name + argsError + InputText(input), 8 * |input|)
  {
    AddIsGrown(c, name);
    AddIsGrown(c.Add(name), argsError);
    GrownTwice(c, name, 0, argsError, 0);
    InputCounted(c.Add(name).Add(argsError), input);
    GrownTwice(c, name + argsError, 0, InputText(input), 8 * |input|);
  }

  lemma BlockCounted(c: Count, b: Block)
    ensures CountBlock(c, b) == Grown(c, Charged(b), PlainOf(b))
  {
    match b
    case Text(text, _) => AddIsGrown(c, text);
    case Thinking(thinking, _, _) => AddIsGrown(c, thinking);
    case ToolUse(_, name, input, argsError) => CallCounted(c, name, argsError, input);
    case ToolResult(_, content, _) => AddIsGrown(c, content);
    case Image(_, data) => BytesAreUtf8(data);
  }

  lemma ContentNext(c: Count, content: seq<Block>)
    requires content != []
    ensures var front, b := content[..|content| - 1], content[|content| - 1];
            CountContent(c, content) == CountBlock(CountContent(c, front), b) &&
            ContentCharged(content) == ContentCharged(front) + Charged(b) &&
            ContentPlain(content) == ContentPlain(front) + PlainOf(b)
  {
  }

  lemma {:induction false} ContentCounted(c: Count, content: seq<Block>)
    ensures CountContent(c, content) ==
            Grown(c, ContentCharged(content), ContentPlain(content))
  {
    if content != [] {
      var front, b := content[..|content| - 1], content[|content| - 1];
      ContentCounted(c, front);
      ContentNext(c, content);
      BlockCounted(CountContent(c, front), b);
      JoinGrown(c, CountContent(c, front), ContentCharged(front), ContentPlain(front),
                CountContent(c, content), Charged(b), PlainOf(b), ContentCharged(content),
                ContentPlain(content));
    }
  }

  lemma ListNext(msgs: seq<Message>)
    requires msgs != []
    ensures var front, content := msgs[..|msgs| - 1], msgs[|msgs| - 1].content;
            CountList(msgs) == CountContent(CountList(front), content) &&
            AllCharged(msgs) == AllCharged(front) + ContentCharged(content) &&
            AllPlain(msgs) == AllPlain(front) + ContentPlain(content)
  {
  }

  lemma {:induction false} ListCounted(msgs: seq<Message>)
    ensures CountList(msgs) == Grown(Count(0, 0), AllCharged(msgs), AllPlain(msgs))
  {
    if msgs != [] {
      var front, content := msgs[..|msgs| - 1], msgs[|msgs| - 1].content;
      ListCounted(front);
      ListNext(msgs);
      ContentCounted(CountList(front), content);
      JoinGrown(Count(0, 0), CountList(front), AllCharged(front), AllPlain(front),
                CountList(msgs), ContentCharged(content), ContentPlain(content),
                AllCharged(msgs), AllPlain(msgs));
    }
  }

  /** Main result: the token estimate of a list is a quarter of its ASCII characters and of
      what is charged by the byte, rounded down once, and one token for every other character. */
  lemma TokensMeasure(msgs: seq<Message>)
    ensures var text, ascii := AllCharged(msgs), AsciiCount(AllCharged(msgs));
            Tokens(msgs) == (ascii + AllPlain(msgs)) / 4 + (|text| - ascii)
  {
    ListCounted(msgs);
    TokensOf(AllCharged(msgs), AllPlain(msgs));
  }

  lemma TokensOf(text: string, plain: nat)
    ensures Grown(Count(0, 0), text, plain).Tokens() == (AsciiCount(text) + plain) / 4 + (|text| - AsciiCount(text))
  {
  }
}
