/** What the blocks, calls and frames of a stream carry, in terms of its events
    (internal/agent/loop.go:1054-1166, 1555-1601). */
module StreamBlocks {
  import opened Provider
  import opened StreamAssembly
  import opened StreamProperties
  import opened Selections

  // ---- Fragments ----------------------------------------------------------------------------

  /** The fragments for an index are joined in order of arrival: each stands between those
      before it and those after it. */
  lemma {:induction false} FragmentInPlace(events: seq<Event>, i: int, a: nat, k: nat, b: nat)
    requires a <= k < b <= |events| && events[k].BlockDelta? && events[k].index == i
    ensures Deltas(events, i, a, b) == Deltas(events, i, a, k) + events[k].delta + Deltas(events, i, k + 1, b)
    ensures Signatures(events, i, a, b) ==
              Signatures(events, i, a, k) + events[k].sigDelta + Signatures(events, i, k + 1, b)
  {
    if k < b - 1 {
      FragmentInPlace(events, i, a, k, b - 1);
    }
  }

  /** Nothing else is in them. */
  lemma {:induction false} NoFragments(events: seq<Event>, i: int, a: nat, b: nat)
    requires a <= b <= |events| && forall k :: a <= k < b ==> !(events[k].BlockDelta? && events[k].index == i)
    ensures Deltas(events, i, a, b) == "" && Signatures(events, i, a, b) == ""
  {
    if a < b {
      NoFragments(events, i, a, b - 1);
    }
  }

  // ---- Blocks ---------------------------------------------------------------------------------

  /** What a finished block carries, given its start block and the fragments that came for
      it. */
  ghost predicate Carries(b: Block, start: Block, text: string, signature: string, decode: Decoder) {
    match start
    case Text(_, cachePoint) => b.Text? && b.text == text && b.cachePoint == cachePoint
    case Thinking(_, sig, cachePoint) =>
      b.Thinking? && b.thinking == text && b.cachePoint == cachePoint &&
      (signature != "" ==> b.signature == signature) && (signature == "" ==> b.signature == sig)
    case ToolUse(id, name, input, argsError) =>
      b.ToolUse? && b.useId == id && b.toolName == name &&
      (text == "" ==> b.input == input && b.argsError == argsError) &&
      (text != "" && decode(text).Some? ==> b.input == decode(text).value && b.argsError == argsError) &&
      (text != "" && decode(text).None? ==> b.argsError != "")
    case _ => b == start
  }

  /** The fragments of the block that event s starts: those for its index before its stop. */
  ghost predicate BlockOfStart(events: seq<Event>, s: nat, b: Block, decode: Decoder)
    requires s < |events| && StartsBlock(events[s])
  {
    var i, t := events[s].index, EndFrom(events, s, s + 1);
    Carries(b, events[s].block.value, Deltas(events, i, s + 1, t), Signatures(events, i, s + 1, t), decode)
  }

  /** Where the block of a start ends: no stop for its index comes before, and one does there
      unless the stream ends. */
  lemma {:induction false} EndsThere(events: seq<Event>, s: nat, k: nat)
    requires s < k <= |events| && StartsBlock(events[s])
    ensures var t := EndFrom(events, s, k);
            (forall j :: k <= j < t ==> !(events[j].BlockStop? && events[j].index == events[s].index)) &&
            (t < |events| ==> events[t].BlockStop? && events[t].index == events[s].index) && k <= t
    decreases |events| - k
  {
    if k < |events| && !StopsIndex(events[k], events[s].index) {
      EndsThere(events, s, k + 1);
    }
  }

  lemma BlockFromCarries(events: seq<Event>, s: nat, decode: Decoder)
    requires s < |events| && StartsBlock(events[s])
    ensures BlockOfStart(events, s, BlockFrom(events, s, decode), decode)
  {
  }

  /** Main result: the blocks of a message are the started blocks, each once. A text or
      thinking block holds exactly its fragments; a call holds what they decode to, or is
      marked when they do not decode. */
  lemma MessageCarries(events: seq<Event>, idxs: seq<int>, decode: Decoder, content: seq<Block>)
    returns (starts: seq<nat>)
    requires LegalUpTo(events, |events|) && OpenInOrder(events, idxs)
    requires content == ClosedBlocks(events, |events|, decode) + OpenBlocks(events, idxs, decode)
    ensures |starts| == |content| && AllDifferent(starts)
    ensures forall s: nat :: s in starts <==> s < |events| && StartsBlock(events[s])
    ensures forall k :: 0 <= k < |starts| ==>
              starts[k] < |events| && StartsBlock(events[starts[k]]) &&
              BlockOfStart(events, starts[k], content[k], decode)
  {
    starts := MessageHasEveryBlock(events, idxs, decode);
    forall k | 0 <= k < |starts|
      ensures starts[k] < |events| && StartsBlock(events[starts[k]]) &&
              BlockOfStart(events, starts[k], content[k], decode)
    {
      BlockFromCarries(events, starts[k], decode);
    }
  }

  // ---- Calls ----------------------------------------------------------------------------------

  /** The call and the block have everything in common. */
  predicate SameCall(c: Call, b: Block) {
    b.ToolUse? && c.id == b.useId && c.name == b.toolName && c.args == b.input && c.argsError == b.argsError
  }

  /** Block k is a call. */
  ghost function UseAt(content: seq<Block>): nat -> bool {
    (k: nat) => k < |content| && content[k].ToolUse?
  }

  ghost function CallAt(content: seq<Block>): (nat, nat) -> bool {
    (j: nat, k: nat) => j < |CallsOf(content)| && k < |content| && SameCall(CallsOf(content)[j], content[k])
  }

  /** Main result: the calls are the tool_use blocks, in order, with their arguments. */
  lemma {:induction false} CallsAreBlocks(content: seq<Block>) returns (at: seq<nat>)
    ensures Positions(at, |content|, UseAt(content)) && Matched(at, |CallsOf(content)|, CallAt(content))
  {
    if content == [] {
      at := [];
    } else {
      var front, n := content[..|content| - 1], |content| - 1;
      at := CallsAreBlocks(front);
      CallsNext(content);
      at := NextSelected(at, n, UseAt(front), UseAt(content), |CallsOf(front)|, CallAt(front), CallAt(content));
    }
  }

  lemma CallsNext(content: seq<Block>)
    requires content != []
    ensures var front, n := content[..|content| - 1], |content| - 1;
            |CallsOf(content)| == (if content[n].ToolUse? then |CallsOf(front)| + 1 else |CallsOf(front)|) &&
            (forall j: nat, k: nat :: CallAt(front)(j, k) ==> CallAt(content)(j, k)) &&
            (content[n].ToolUse? ==> CallAt(content)(|CallsOf(front)|, n))
  {
  }

  // ---- Frames -----------------------------------------------------------------------------------

  /** The text the client is shown, and the thinking. */
  function ShownText(frames: seq<Frame>): string {
    if frames == [] then "" else
    var rest, f := ShownText(frames[..|frames| - 1]), frames[|frames| - 1];
    if f.TextFrame? then rest + f.delta else rest
  }

  function ShownThinking(frames: seq<Frame>): string {
    if frames == [] then "" else
    var rest, f := ShownThinking(frames[..|frames| - 1]), frames[|frames| - 1];
    if f.ThinkingFrame? then rest + f.delta else rest
  }

  lemma {:induction false} ShownJoin(a: seq<Frame>, b: seq<Frame>)
    ensures ShownText(a + b) == ShownText(a) + ShownText(b)
    ensures ShownThinking(a + b) == ShownThinking(a) + ShownThinking(b)
  {
    if b == [] {
      assert a + b == a;
    } else {
      ShownJoin(a, b[..|b| - 1]);
      assert (a + b)[..|a + b| - 1] == a + b[..|b| - 1];
    }
  }

  /** The block that event n brings a fragment for. */
  predicate ForBlock(events: seq<Event>, n: nat, s: nat)
    requires n < |events| && s < |events|
  {
    events[n].BlockDelta? && OpenAt(events, n, events[n].index) == Some(s)
  }

  /** The only text block of the stream is the one event s starts. */
  ghost predicate OnlyText(events: seq<Event>, s: nat) {
    s < |events| && StartsBlock(events[s]) && events[s].block.value.Text? &&
    forall k :: 0 <= k < |events| && k != s && StartsBlock(events[k]) ==> !events[k].block.value.Text?
  }

  ghost predicate OnlyThinking(events: seq<Event>, s: nat) {
    s < |events| && StartsBlock(events[s]) && events[s].block.value.Thinking? &&
    forall k :: 0 <= k < |events| && k != s && StartsBlock(events[k]) ==> !events[k].block.value.Thinking?
  }

  /** The fragments for the block of start s among the first n events. */
  function Arrived(events: seq<Event>, n: nat, s: nat): string
    requires n <= |events| && s < |events|
  {
    if n == 0 then "" else
    Arrived(events, n - 1, s) + if ForBlock(events, n - 1, s) then events[n - 1].delta else ""
  }

  lemma UseShowsNothing(b: Block)
    ensures ShownText(UseFrames(b)) == "" && ShownThinking(UseFrames(b)) == ""
  {
    if b.ToolUse? {
      assert UseFrames(b)[..0] == [];
    }
  }

  lemma {:induction false} UsesShowNothing(blocks: seq<Block>)
    ensures ShownText(UseFramesOf(blocks)) == "" && ShownThinking(UseFramesOf(blocks)) == ""
  {
    if blocks != [] {
      UsesShowNothing(blocks[..|blocks| - 1]);
      UseShowsNothing(blocks[|blocks| - 1]);
      ShownJoin(UseFramesOf(blocks[..|blocks| - 1]), UseFrames(blocks[|blocks| - 1]));
    }
  }

  lemma OneFrameShown(f: Frame)
    ensures ShownText([f]) == (if f.TextFrame? then f.delta else "")
    ensures ShownThinking([f]) == (if f.ThinkingFrame? then f.delta else "")
  {
    assert [f][..0] == [];
  }

  /** What one event shows of the only text block. */
  lemma EventShows(events: seq<Event>, n: nat, s: nat, decode: Decoder)
    requires n < |events| && s < |events|
    ensures OnlyText(events, s) ==>
              ShownText(FramesAt(events, n, decode)) == if ForBlock(events, n, s) then events[n].delta else ""
    ensures OnlyThinking(events, s) ==>
              ShownThinking(FramesAt(events, n, decode)) == if ForBlock(events, n, s) then events[n].delta else ""
  {
    var frames := FramesAt(events, n, decode);
    if |frames| == 1 {
      OneFrameShown(frames[0]);
      assert frames == [frames[0]];
    }
  }

  lemma {:induction false} ArrivedShown(events: seq<Event>, n: nat, s: nat, decode: Decoder)
    requires n <= |events| && s < |events|
    ensures OnlyText(events, s) ==> ShownText(Frames(events, n, decode)) == Arrived(events, n, s)
    ensures OnlyThinking(events, s) ==> ShownThinking(Frames(events, n, decode)) == Arrived(events, n, s)
  {
    if n > 0 {
      ArrivedShown(events, n - 1, s, decode);
      EventShows(events, n - 1, s, decode);
      ShownJoin(Frames(events, n - 1, decode), FramesAt(events, n - 1, decode));
    }
  }

  /** In a legal stream the fragments that found their block open are those before its end. */
  lemma {:induction false} ArrivedAre(events: seq<Event>, n: nat, s: nat)
    requires LegalUpTo(events, n) && s < |events| && StartsBlock(events[s])
    ensures n <= s ==> Arrived(events, n, s) == ""
    ensures s < n && OpenSince(events, n, s) ==> Arrived(events, n, s) == Deltas(events, events[s].index, s + 1, n)
    ensures s < n && !OpenSince(events, n, s) ==>
              EndFrom(events, s, s + 1) < n &&
              Arrived(events, n, s) == Deltas(events, events[s].index, s + 1, EndFrom(events, s, s + 1))
  {
    if n > 0 {
      ArrivedAre(events, n - 1, s);
      assert Legal(events, n - 1);
      if s < n - 1 && OpenSince(events, n - 1, s) {
        OpenNext(events, n - 1, s);
        OpenUnstopped(events, n - 1, s);
        EndSkips(events, s, s + 1, n - 1);
      }
    }
  }

  lemma OpenToTheEnd(events: seq<Event>, s: nat)
    requires s < |events| && StartsBlock(events[s]) && OpenSince(events, |events|, s)
    ensures EndFrom(events, s, s + 1) == |events|
  {
    OpenUnstopped(events, |events|, s);
    EndSkips(events, s, s + 1, |events|);
  }

  /** Main result: a stream with one text block shows the client exactly the text of that
      block, fragment by fragment; the same of thinking. */
  lemma TextIsShown(events: seq<Event>, idxs: seq<int>, s: nat, decode: Decoder, b: Block)
    requires LegalUpTo(events, |events|) && OpenInOrder(events, idxs)
    requires s < |events| && StartsBlock(events[s]) && BlockOfStart(events, s, b, decode)
    ensures var frames := Frames(events, |events|, decode) + UseFramesOf(OpenBlocks(events, idxs, decode));
            (OnlyText(events, s) ==> b.Text? && ShownText(frames) == b.text) &&
            (OnlyThinking(events, s) ==> b.Thinking? && ShownThinking(frames) == b.thinking)
  {
    ArrivedShown(events, |events|, s, decode);
    ArrivedAre(events, |events|, s);
    if OpenSince(events, |events|, s) {
      OpenToTheEnd(events, s);
    }
    UsesShowNothing(OpenBlocks(events, idxs, decode));
    ShownJoin(Frames(events, |events|, decode), UseFramesOf(OpenBlocks(events, idxs, decode)));
  }

  ghost function ToldAt(blocks: seq<Block>): (nat, nat) -> bool {
    (j: nat, k: nat) =>
      j < |UseFramesOf(blocks)| && k < |blocks| && blocks[k].ToolUse? &&
      UseFramesOf(blocks)[j] == ToolUseFrame(blocks[k].useId, blocks[k].toolName, blocks[k].input)
  }

  /** The announcements of finished calls tell their arguments, in order. */
  lemma {:induction false} Announcements(blocks: seq<Block>) returns (at: seq<nat>)
    ensures Positions(at, |blocks|, UseAt(blocks)) && Matched(at, |UseFramesOf(blocks)|, ToldAt(blocks))
  {
    if blocks == [] {
      at := [];
    } else {
      var front, n := blocks[..|blocks| - 1], |blocks| - 1;
      at := Announcements(front);
      ToldNext(blocks);
      at := NextSelected(at, n, UseAt(front), UseAt(blocks), |UseFramesOf(front)|, ToldAt(front), ToldAt(blocks));
    }
  }

  lemma ToldNext(blocks: seq<Block>)
    requires blocks != []
    ensures var front, n := blocks[..|blocks| - 1], |blocks| - 1;
            |UseFramesOf(blocks)| == (if blocks[n].ToolUse? then |UseFramesOf(front)| + 1 else |UseFramesOf(front)|) &&
            (forall j: nat, k: nat :: ToldAt(front)(j, k) ==> ToldAt(blocks)(j, k)) &&
            (blocks[n].ToolUse? ==> ToldAt(blocks)(|UseFramesOf(front)|, n))
  {
  }

  // ---- Terminal metadata --------------------------------------------------------------------------

  /** Every count of the usage is one that was reported; with UsageNeverShrinks, the highest. */
  lemma {:induction false} UsageWasReported(events: seq<Event>, n: nat)
    requires n <= |events| && EndAfter(events, n).usage.Some?
    ensures var u := EndAfter(events, n).usage.value;
            (exists k :: 0 <= k < n && Reports(events[k]) && events[k].usage.value.input == u.input) &&
            (exists k :: 0 <= k < n && Reports(events[k]) && events[k].usage.value.output == u.output) &&
            (exists k :: 0 <= k < n && Reports(events[k]) && events[k].usage.value.cacheRead == u.cacheRead) &&
            (exists k :: 0 <= k < n && Reports(events[k]) && events[k].usage.value.cacheWrite == u.cacheWrite) &&
            (exists k :: 0 <= k < n && Reports(events[k]) && events[k].usage.value.reasoning == u.reasoning)
  {
    if EndAfter(events, n - 1).usage.Some? {
      UsageWasReported(events, n - 1);
    }
    assert EndAfter(events, n - 1).usage.None? ==> Reports(events[n - 1]);
  }

  predicate Reports(e: Event) { e.MessageStop? && e.usage.Some? }
}
