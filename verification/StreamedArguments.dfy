/** Fed by the stream reader, the encoder puts each call's arguments on the wire once
    (internal/agent/loop.go:1064-1107, internal/chatapi/emitter.go:200-262). */
module StreamedArguments {
  import opened Provider
  import opened Emitter
  import opened EmitterProperties
  import Stream = StreamAssembly

  /** The argument text a client has received for a call. */
  function ArgsOf(frames: seq<Wire>, id: string): string {
    if frames == [] then "" else
    var before, w := ArgsOf(frames[..|frames| - 1], id), frames[|frames| - 1];
    if w.CallDelta? && w.id == id then before + w.args else before
  }

  lemma {:induction false} ArgsConcat(a: seq<Wire>, b: seq<Wire>, id: string)
    ensures ArgsOf(a + b, id) == ArgsOf(a, id) + ArgsOf(b, id)
  {
    if b == [] {
      assert a + b == a;
    } else {
      var front, last := b[..|b| - 1], b[|b| - 1];
      ArgsConcat(a, front, id);
      assert (a + b)[..|a + b| - 1] == a + front && (a + b)[|a + b| - 1] == last;
    }
  }

  /** What event e puts on the wire for call id, when `streamed` says whether any fragment of
      it went before. */
  function Contribution(e: Event, id: string, streamed: bool): string {
    match e
    case ToolArgs(id', _, delta) => if id' == id then delta else ""
    case ToolUse(id', _, Some(input)) => if id' == id && !streamed then input else ""
    case _ => ""
  }

  lemma {:induction false} NoArgs(frames: seq<Wire>, id: string)
    requires forall w :: w in frames ==> !w.CallDelta?
    ensures ArgsOf(frames, id) == ""
  {
    if frames != [] {
      NoArgs(frames[..|frames| - 1], id);
      assert !frames[|frames| - 1].CallDelta?;
    }
  }

  lemma OneArgs(w: Wire, id: string)
    ensures ArgsOf([w], id) == if w.CallDelta? && w.id == id then w.args else ""
  {
    assert [w][..0] == [];
  }

  lemma CallRestArgs(f: Flags, e: Event, id: string)
    requires e.ToolArgs? || e.ToolUse?
    ensures ArgsOf(CallRest(f, e), id) == Contribution(e, id, id in f.argsStreamed)
  {
    if e.ToolArgs? {
      if e.delta != "" {
        OneArgs(CallDelta(e.id, e.delta), id);
      }
    } else if e.id !in f.argsStreamed && e.input.Some? {
      ArgsConcat([CallDelta(e.id, e.input.value)], [CallEnd(e.id)], id);
      OneArgs(CallDelta(e.id, e.input.value), id);
      OneArgs(CallEnd(e.id), id);
      assert CallRest(f, e) == [CallDelta(e.id, e.input.value)] + [CallEnd(e.id)];
    } else {
      OneArgs(CallEnd(e.id), id);
    }
  }

  lemma CallArgs(f: Flags, e: Event, id: string)
    requires e.ToolArgs? || e.ToolUse?
    ensures ArgsOf(Encode(f, e).frames, id) == Contribution(e, id, id in f.argsStreamed)
  {
    var start, rest := OpenCall(f, e.id, e.name).frames, CallRest(f, e);
    ArgsConcat(start, rest, id);
    NoArgs(start, id);
    CallRestArgs(f, e, id);
  }

  /** Events that are not about calls carry no arguments. */
  lemma QuietFrames(f: Flags, e: Event)
    requires !e.ToolArgs? && !e.ToolUse?
    ensures Encode(f, e).flags.argsStreamed == f.argsStreamed && forall w :: w in Encode(f, e).frames ==> !w.CallDelta?
  {
    if e.Text? || e.Cancelled? {
      assert forall w :: w in CloseThinking(f).frames ==> w == ReasoningEnd;
    }
  }

  lemma CallStreams(f: Flags, e: Event, id: string)
    requires e.ToolArgs? || e.ToolUse?
    ensures id in Encode(f, e).flags.argsStreamed <==> id in f.argsStreamed || Streams(e, id)
  {
  }

  lemma EncodeContributes(f: Flags, e: Event, id: string)
    ensures ArgsOf(Encode(f, e).frames, id) == Contribution(e, id, id in f.argsStreamed)
    ensures id in Encode(f, e).flags.argsStreamed <==> id in f.argsStreamed || Streams(e, id)
  {
    if e.ToolArgs? || e.ToolUse? {
      CallArgs(f, e, id);
      CallStreams(f, e, id);
    } else {
      QuietFrames(f, e);
      NoArgs(Encode(f, e).frames, id);
    }
  }

  /** The event forwards a fragment of call id. */
  predicate Streams(e: Event, id: string) {
    e.ToolArgs? && e.id == id && e.delta != ""
  }

  /** How the run hands a stream frame to the emitter; `marshal` encodes a call's input. */
  function Tell(frame: Stream.Frame, marshal: seq<(string, string)> -> string): Event {
    match frame
    case TextFrame(delta) => Event.Text(delta)
    case ThinkingFrame(delta) => Event.Thinking(delta)
    case ToolArgsFrame(id, name, delta) => ToolArgs(id, name, delta)
    case ToolUseFrame(id, name, input) => Event.ToolUse(id, name, Some(marshal(input)))
  }

  function TellAll(frames: seq<Stream.Frame>, marshal: seq<(string, string)> -> string): seq<Event> {
    if frames == [] then [] else TellAll(frames[..|frames| - 1], marshal) + [Tell(frames[|frames| - 1], marshal)]
  }

  /** What a client has received for call id once these stream frames are encoded, and
      whether any of it came as fragments. */
  ghost predicate Received(frames: seq<Stream.Frame>, marshal: seq<(string, string)> -> string, id: string,
                           args: string, streamed: bool) {
    var e := EncodeAll(TellAll(frames, marshal));
    ArgsOf(e.frames, id) == args && (id in e.flags.argsStreamed <==> streamed)
  }

  lemma ToldNext(frames: seq<Stream.Frame>, frame: Stream.Frame, marshal: seq<(string, string)> -> string)
    ensures TellAll(frames + [frame], marshal) == TellAll(frames, marshal) + [Tell(frame, marshal)]
  {
    assert (frames + [frame])[..|frames|] == frames;
  }

  lemma EncodedNext(events: seq<Event>, e: Event)
    ensures var before := EncodeAll(events); var step := Encode(before.flags, e);
            EncodeAll(events + [e]) == Encoded(step.flags, before.frames + step.frames)
  {
    assert (events + [e])[..|events|] == events;
  }

  lemma ReceivedNext(frames: seq<Stream.Frame>, frame: Stream.Frame, marshal: seq<(string, string)> -> string,
                     id: string, args: string, streamed: bool)
    requires Received(frames, marshal, id, args, streamed)
    ensures Received(frames + [frame], marshal, id, args + Contribution(Tell(frame, marshal), id, streamed),
                     streamed || (frame.ToolArgsFrame? && frame.id == id && frame.delta != ""))
  {
    var events, e := TellAll(frames, marshal), Tell(frame, marshal);
    var before := EncodeAll(events);
    ToldNext(frames, frame, marshal);
    EncodedNext(events, e);
    EncodeContributes(before.flags, e, id);
    ArgsConcat(before.frames, Encode(before.flags, e).frames, id);
  }

  // ---- One call's block ---------------------------------------------------------------------

  predicate StartsCall(e: Stream.Event, id: string) {
    e.BlockStart? && e.block.Some? && e.block.value.ToolUse? && e.block.value.useId == id
  }

  /** Event s, and no other, starts a call with this id. */
  ghost predicate OnlyStart(events: seq<Stream.Event>, s: nat, id: string) {
    s < |events| && forall k :: 0 <= k < |events| ==> (StartsCall(events[k], id) <==> k == s)
  }

  predicate OpenFrom(events: seq<Stream.Event>, n: nat, s: nat)
    requires s < |events| && n <= |events| && events[s].BlockStart?
  {
    Stream.OpenAt(events, n, events[s].index) == Some(s)
  }

  /** The last moment up to n at which the block opened by event s is open. */
  function OpenUntil(events: seq<Stream.Event>, n: nat, s: nat): (t: nat)
    requires s < n <= |events| && events[s].BlockStart?
    ensures s < t <= n
  {
    if n == s + 1 || OpenFrom(events, n, s) then n else OpenUntil(events, n - 1, s)
  }

  /** The call's argument text as the provider sent it. */
  function ArgumentText(events: seq<Stream.Event>, n: nat, s: nat): string
    requires s < n <= |events| && events[s].BlockStart?
  {
    Stream.Deltas(events, events[s].index, s + 1, OpenUntil(events, n, s))
  }

  /** The text that should reach the client: the fragments, or the whole input for a call
      that had none. */
  function WholeArguments(events: seq<Stream.Event>, n: nat, s: nat, marshal: seq<(string, string)> -> string): string
    requires s < n <= |events| && events[s].BlockStart? && events[s].block.Some? && events[s].block.value.ToolUse?
  {
    if ArgumentText(events, n, s) != "" then ArgumentText(events, n, s) else marshal(events[s].block.value.input)
  }

  /** After n events: nothing yet, the fragments so far while the block is open, everything
      once it is closed. */
  ghost predicate ReceivedBy(events: seq<Stream.Event>, n: nat, s: nat, id: string, frames: seq<Stream.Frame>,
                             marshal: seq<(string, string)> -> string)
    requires n <= |events| && OnlyStart(events, s, id)
  {
    if n <= s then Received(frames, marshal, id, "", false)
    else if OpenFrom(events, n, s) then
      Received(frames, marshal, id, ArgumentText(events, n, s), ArgumentText(events, n, s) != "")
    else Received(frames, marshal, id, WholeArguments(events, n, s, marshal), ArgumentText(events, n, s) != "")
  }

  /** A frame of another block never mentions the call. */
  lemma ForeignBlock(events: seq<Stream.Event>, s: nat, id: string, k: nat, t: nat, decode: Stream.Decoder)
    requires OnlyStart(events, s, id) && k != s && k < t <= |events| && events[k].BlockStart? && events[k].block.Some?
    ensures var b := Stream.BlockOver(events, k, t, decode); !(b.ToolUse? && b.useId == id)
    ensures var b := events[k].block.value; !(b.ToolUse? && b.useId == id)
  {
    assert !StartsCall(events[k], id);
  }

  lemma OwnBlock(events: seq<Stream.Event>, s: nat, id: string, t: nat, decode: Stream.Decoder)
    requires OnlyStart(events, s, id) && s < t <= |events|
    ensures var b := Stream.BlockOver(events, s, t, decode);
            b.ToolUse? && b.useId == id &&
            (Stream.Deltas(events, events[s].index, s + 1, t) == "" ==> b.input == events[s].block.value.input)
  {
    assert StartsCall(events[s], id);
  }

  lemma OpenStays(events: seq<Stream.Event>, n: nat, s: nat)
    requires s < n < |events| && events[s].BlockStart? && events[s].block.Some? && Stream.Legal(events, n)
    ensures OpenFrom(events, n + 1, s) <==>
              OpenFrom(events, n, s) && !(events[n].BlockStop? && events[n].index == events[s].index)
    ensures OpenFrom(events, n + 1, s) ==>
              ArgumentText(events, n + 1, s) == Stream.Deltas(events, events[s].index, s + 1, n + 1)
    ensures OpenFrom(events, n, s) ==> ArgumentText(events, n, s) == Stream.Deltas(events, events[s].index, s + 1, n)
    ensures !OpenFrom(events, n + 1, s) ==> ArgumentText(events, n + 1, s) == ArgumentText(events, n, s)
  {
  }

  /** A frame that is not about the call changes nothing for it. */
  predicate Foreign(frame: Stream.Frame, id: string) {
    !(frame.ToolArgsFrame? && frame.id == id) && !(frame.ToolUseFrame? && frame.id == id)
  }

  lemma ForeignStep(frames: seq<Stream.Frame>, frame: Stream.Frame, marshal: seq<(string, string)> -> string,
                    id: string, args: string, streamed: bool)
    requires Received(frames, marshal, id, args, streamed) && Foreign(frame, id)
    ensures Received(frames + [frame], marshal, id, args, streamed)
  {
    ReceivedNext(frames, frame, marshal, id, args, streamed);
    assert args + "" == args;
  }

  /** An event outside the call's block yields at most frames of other blocks. */
  lemma EventForeign(events: seq<Stream.Event>, n: nat, s: nat, id: string, decode: Stream.Decoder)
    requires OnlyStart(events, s, id) && n < |events| && n != s
    requires s < n ==>
               !(OpenFrom(events, n, s) && (events[n].BlockDelta? || events[n].BlockStop?) &&
                 events[n].index == events[s].index)
    ensures |Stream.FramesAt(events, n, decode)| <= 1
    ensures forall frame :: frame in Stream.FramesAt(events, n, decode) ==> Foreign(frame, id)
  {
    var e := events[n];
    assert StartsCall(events[s], id);
    assert !StartsCall(events[n], id);
    if e.BlockDelta? || e.BlockStop? {
      var o := Stream.OpenAt(events, n, e.index);
      if o.Some? {
        ForeignBlock(events, s, id, o.value, n, decode);
      }
    }
  }

  lemma ForeignEvent(events: seq<Stream.Event>, n: nat, s: nat, id: string, decode: Stream.Decoder,
                     marshal: seq<(string, string)> -> string, args: string, streamed: bool)
    requires OnlyStart(events, s, id) && n < |events| && n != s
    requires s < n ==>
               !(OpenFrom(events, n, s) && (events[n].BlockDelta? || events[n].BlockStop?) &&
                 events[n].index == events[s].index)
    requires Received(Stream.Frames(events, n, decode), marshal, id, args, streamed)
    ensures Received(Stream.Frames(events, n + 1, decode), marshal, id, args, streamed)
  {
    EventForeign(events, n, s, id, decode);
    var was, now := Stream.Frames(events, n, decode), Stream.FramesAt(events, n, decode);
    if now == [] {
      assert was + now == was;
    } else {
      assert now == [now[0]];
      ForeignStep(was, now[0], marshal, id, args, streamed);
    }
  }

  lemma OwnStart(events: seq<Stream.Event>, s: nat, id: string, decode: Stream.Decoder,
                 marshal: seq<(string, string)> -> string)
    requires OnlyStart(events, s, id)
    requires Received(Stream.Frames(events, s, decode), marshal, id, "", false)
    ensures ReceivedBy(events, s + 1, s, id, Stream.Frames(events, s + 1, decode), marshal)
  {
    assert StartsCall(events[s], id);
    var frame := Stream.FramesAt(events, s, decode)[0];
    ReceivedNext(Stream.Frames(events, s, decode), frame, marshal, id, "", false);
    assert "" + "" == "";
  }

  lemma OwnDelta(events: seq<Stream.Event>, n: nat, s: nat, id: string, decode: Stream.Decoder,
                 marshal: seq<(string, string)> -> string)
    requires OnlyStart(events, s, id) && s < n < |events| && Stream.Legal(events, n)
    requires OpenFrom(events, n, s) && events[n].BlockDelta? && events[n].index == events[s].index
    requires ReceivedBy(events, n, s, id, Stream.Frames(events, n, decode), marshal)
    ensures ReceivedBy(events, n + 1, s, id, Stream.Frames(events, n + 1, decode), marshal)
  {
    assert StartsCall(events[s], id);
    DeltaFrames(events, n, s, decode);
    TextGrows(events, n, s);
    DeltaReceived(Stream.Frames(events, n, decode), marshal, id, events[s].block.value.toolName,
                  ArgumentText(events, n, s), events[n].delta);
  }

  /** A fragment reaches the client; an empty one sends nothing. */
  lemma DeltaReceived(was: seq<Stream.Frame>, marshal: seq<(string, string)> -> string, id: string, name: string,
                      text: string, delta: string)
    requires Received(was, marshal, id, text, text != "")
    ensures delta == "" ==> Received(was, marshal, id, text + delta, text + delta != "")
    ensures delta != "" ==>
              Received(was + [Stream.ToolArgsFrame(id, name, delta)], marshal, id, text + delta, text + delta != "")
  {
    if delta == "" {
      assert text + delta == text;
    } else {
      var frame := Stream.ToolArgsFrame(id, name, delta);
      assert Contribution(Tell(frame, marshal), id, text != "") == delta;
      ReceivedNext(was, frame, marshal, id, text, text != "");
    }
  }

  lemma TextGrows(events: seq<Stream.Event>, n: nat, s: nat)
    requires s < n < |events| && events[s].BlockStart? && events[s].block.Some? && Stream.Legal(events, n)
    requires OpenFrom(events, n, s) && events[n].BlockDelta? && events[n].index == events[s].index
    ensures OpenFrom(events, n + 1, s) && ArgumentText(events, n + 1, s) == ArgumentText(events, n, s) + events[n].delta
  {
    OpenStays(events, n, s);
    assert Stream.Deltas(events, events[s].index, s + 1, n + 1) ==
             Stream.Deltas(events, events[s].index, s + 1, n) + events[n].delta;
  }

  lemma DeltaFrames(events: seq<Stream.Event>, n: nat, s: nat, decode: Stream.Decoder)
    requires s < n < |events| && events[s].BlockStart? && events[s].block.Some? && events[s].block.value.ToolUse?
    requires OpenFrom(events, n, s) && events[n].BlockDelta? && events[n].index == events[s].index
    ensures var b := events[s].block.value; var was := Stream.Frames(events, n, decode);
            Stream.Frames(events, n + 1, decode) ==
            if events[n].delta == "" then was else was + [Stream.ToolArgsFrame(b.useId, b.toolName, events[n].delta)]
  {
    assert Stream.Frames(events, n, decode) + [] == Stream.Frames(events, n, decode);
  }

  /** The frame that announces the call carries its input when there were no fragments. */
  lemma SettlingFrame(events: seq<Stream.Event>, n: nat, s: nat, id: string, decode: Stream.Decoder,
                      marshal: seq<(string, string)> -> string) returns (frame: Stream.Frame)
    requires OnlyStart(events, s, id) && s < n <= |events| && OpenFrom(events, n, s)
    requires events[s].block.Some? && events[s].block.value.ToolUse?
    ensures Stream.UseFrames(Stream.BlockOver(events, s, n, decode)) == [frame] && !frame.ToolArgsFrame?
    ensures ArgumentText(events, n, s) + Contribution(Tell(frame, marshal), id, ArgumentText(events, n, s) != "") ==
              WholeArguments(events, n, s, marshal)
  {
    OwnBlock(events, s, id, n, decode);
    frame := Stream.UseFrames(Stream.BlockOver(events, s, n, decode))[0];
    assert "" + marshal(events[s].block.value.input) == marshal(events[s].block.value.input);
    assert ArgumentText(events, n, s) + "" == ArgumentText(events, n, s);
  }

  lemma StopFrames(events: seq<Stream.Event>, n: nat, s: nat, decode: Stream.Decoder)
    requires s < n < |events| && events[s].BlockStart? && events[s].block.Some?
    requires OpenFrom(events, n, s) && events[n].BlockStop? && events[n].index == events[s].index
    ensures Stream.Frames(events, n + 1, decode) ==
              Stream.Frames(events, n, decode) + Stream.UseFrames(Stream.BlockOver(events, s, n, decode))
  {
  }

  lemma OwnStop(events: seq<Stream.Event>, n: nat, s: nat, id: string, decode: Stream.Decoder,
                marshal: seq<(string, string)> -> string)
    requires OnlyStart(events, s, id) && s < n < |events| && Stream.Legal(events, n)
    requires OpenFrom(events, n, s) && events[n].BlockStop? && events[n].index == events[s].index
    requires ReceivedBy(events, n, s, id, Stream.Frames(events, n, decode), marshal)
    ensures ReceivedBy(events, n + 1, s, id, Stream.Frames(events, n + 1, decode), marshal)
  {
    assert StartsCall(events[s], id);
    OpenStays(events, n, s);
    StopFrames(events, n, s, decode);
    var frame := SettlingFrame(events, n, s, id, decode, marshal);
    ReceivedNext(Stream.Frames(events, n, decode), frame, marshal, id, ArgumentText(events, n, s),
                 ArgumentText(events, n, s) != "");
  }

  /** Event by event: the call's text grows with its own fragments and is settled when its
      block closes. */
  lemma {:induction false} ArgumentsSoFar(events: seq<Stream.Event>, n: nat, s: nat, id: string,
                                          decode: Stream.Decoder, marshal: seq<(string, string)> -> string)
    requires OnlyStart(events, s, id) && n <= |events| && forall k :: 0 <= k < n ==> Stream.Legal(events, k)
    ensures ReceivedBy(events, n, s, id, Stream.Frames(events, n, decode), marshal)
  {
    if n == 0 {
      return;
    }
    var m := n - 1;
    ArgumentsSoFar(events, m, s, id, decode, marshal);
    assert StartsCall(events[s], id);
    if m < s {
      ForeignEvent(events, m, s, id, decode, marshal, "", false);
    } else if m == s {
      OwnStart(events, s, id, decode, marshal);
    } else {
      OpenStays(events, m, s);
      if OpenFrom(events, m, s) && events[m].BlockDelta? && events[m].index == events[s].index {
        OwnDelta(events, m, s, id, decode, marshal);
      } else if OpenFrom(events, m, s) && events[m].BlockStop? && events[m].index == events[s].index {
        OwnStop(events, m, s, id, decode, marshal);
      } else {
        OtherEvent(events, m, s, id, decode, marshal);
      }
    }
  }

  lemma OtherEvent(events: seq<Stream.Event>, m: nat, s: nat, id: string, decode: Stream.Decoder,
                   marshal: seq<(string, string)> -> string)
    requires OnlyStart(events, s, id) && s < m < |events| && Stream.Legal(events, m)
    requires !(OpenFrom(events, m, s) && (events[m].BlockDelta? || events[m].BlockStop?) &&
               events[m].index == events[s].index)
    requires ReceivedBy(events, m, s, id, Stream.Frames(events, m, decode), marshal)
    ensures ReceivedBy(events, m + 1, s, id, Stream.Frames(events, m + 1, decode), marshal)
  {
    assert StartsCall(events[s], id);
    OpenStays(events, m, s);
    var text := ArgumentText(events, m, s);
    ForeignEvent(events, m, s, id, decode, marshal,
                 if OpenFrom(events, m, s) then text else WholeArguments(events, m, s, marshal), text != "");
  }

  // ---- The end of the stream ------------------------------------------------------------------

  lemma AtEndNext(events: seq<Stream.Event>, idxs: seq<int>, s: nat, o: nat, marshal: seq<(string, string)> -> string)
    requires s < |events| && events[s].BlockStart? && events[s].block.Some? && events[s].block.value.ToolUse?
    requires idxs != [] && Stream.Ascending(idxs) && Stream.OpenAt(events, |events|, idxs[|idxs| - 1]) == Some(o)
    ensures var rest := idxs[..|idxs| - 1];
            Stream.Ascending(rest) &&
            (o == s ==> AtEnd(events, rest, s, marshal) == ArgumentText(events, |events|, s)) &&
            AtEnd(events, idxs, s, marshal) ==
            if o == s then WholeArguments(events, |events|, s, marshal) else AtEnd(events, rest, s, marshal)
  {
    var rest := idxs[..|idxs| - 1];
    assert forall k :: 0 <= k < |rest| ==> rest[k] < idxs[|idxs| - 1];
    assert idxs == rest + [idxs[|idxs| - 1]];
  }

  /** The text after the blocks at `idxs` were finished: whole once the call's own was. */
  function AtEnd(events: seq<Stream.Event>, idxs: seq<int>, s: nat, marshal: seq<(string, string)> -> string): string
    requires s < |events| && events[s].BlockStart? && events[s].block.Some? && events[s].block.value.ToolUse?
  {
    var n := |events|;
    if OpenFrom(events, n, s) && events[s].index !in idxs then ArgumentText(events, n, s)
    else WholeArguments(events, n, s, marshal)
  }

  lemma OneMoreBlock(events: seq<Stream.Event>, idxs: seq<int>, decode: Stream.Decoder)
    returns (rest: seq<int>, o: nat, was: seq<Stream.Frame>)
    requires idxs != [] && Stream.AllOpen(events, idxs)
    ensures rest == idxs[..|idxs| - 1] && Stream.OpenAt(events, |events|, idxs[|idxs| - 1]) == Some(o)
    ensures was == Stream.Frames(events, |events|, decode) + Stream.UseFramesOf(Stream.OpenBlocks(events, rest, decode))
    ensures was + Stream.UseFrames(Stream.BlockOver(events, o, |events|, decode)) ==
            Stream.Frames(events, |events|, decode) + Stream.UseFramesOf(Stream.OpenBlocks(events, idxs, decode))
  {
    rest, o := idxs[..|idxs| - 1], Stream.OpenAt(events, |events|, idxs[|idxs| - 1]).value;
    var read, blocks := Stream.Frames(events, |events|, decode), Stream.OpenBlocks(events, rest, decode);
    var b := Stream.BlockOver(events, o, |events|, decode);
    was := read + Stream.UseFramesOf(blocks);
    assert (blocks + [b])[..|blocks|] == blocks;
    assert read + (Stream.UseFramesOf(blocks) + Stream.UseFrames(b)) == was + Stream.UseFrames(b);
  }

  /** The blocks finished at the end of the stream settle the call if it was still open. */
  lemma {:induction false} ArgumentsAtEnd(events: seq<Stream.Event>, idxs: seq<int>, s: nat, id: string,
                                          decode: Stream.Decoder, marshal: seq<(string, string)> -> string)
    requires OnlyStart(events, s, id) && StartsCall(events[s], id) && Stream.AllOpen(events, idxs) &&
             Stream.Ascending(idxs)
    requires forall k :: 0 <= k < |events| ==> Stream.Legal(events, k)
    ensures Received(Stream.Frames(events, |events|, decode) +
                     Stream.UseFramesOf(Stream.OpenBlocks(events, idxs, decode)),
                     marshal, id, AtEnd(events, idxs, s, marshal), ArgumentText(events, |events|, s) != "")
  {
    if idxs == [] {
      ArgumentsSoFar(events, |events|, s, id, decode, marshal);
      assert Stream.Frames(events, |events|, decode) + [] == Stream.Frames(events, |events|, decode);
    } else {
      var rest, o, was := OneMoreBlock(events, idxs, decode);
      ArgumentsAtEnd(events, rest, s, id, decode, marshal);
      AtEndNext(events, idxs, s, o, marshal);
      LastBlock(events, s, id, o, decode, marshal, was, AtEnd(events, rest, s, marshal));
    }
  }

  lemma LastBlock(events: seq<Stream.Event>, s: nat, id: string, o: nat, decode: Stream.Decoder,
                  marshal: seq<(string, string)> -> string, was: seq<Stream.Frame>, args: string)
    requires OnlyStart(events, s, id) && o < |events| && events[o].BlockStart? && events[o].block.Some? &&
             OpenFrom(events, |events|, o)
    requires Received(was, marshal, id, args, ArgumentText(events, |events|, s) != "")
    requires o == s ==> args == ArgumentText(events, |events|, s)
    ensures Received(was + Stream.UseFrames(Stream.BlockOver(events, o, |events|, decode)), marshal, id,
              if o == s then WholeArguments(events, |events|, s, marshal) else args,
              ArgumentText(events, |events|, s) != "")
  {
    assert StartsCall(events[s], id);
    var n := |events|;
    var b := Stream.BlockOver(events, o, n, decode);
    if o == s {
      var frame := SettlingFrame(events, n, s, id, decode, marshal);
      ReceivedNext(was, frame, marshal, id, args, args != "");
    } else {
      ForeignBlock(events, s, id, o, n, decode);
      if b.ToolUse? {
        ForeignStep(was, Stream.UseFrames(b)[0], marshal, id, args, ArgumentText(events, n, s) != "");
      } else {
        assert was + [] == was;
      }
    }
  }

  /** Main result: for a stream read to its end without a failure, with one call under this
      id, the client has received the call's argument text exactly once, in order and whole,
      however its fragments were interleaved with other blocks. An empty id must not meet an
      emitter without maps. */
  lemma ArgumentsOnce(events: seq<Stream.Event>, idxs: seq<int>, s: nat, id: string, decode: Stream.Decoder,
                      marshal: seq<(string, string)> -> string)
    requires OnlyStart(events, s, id) && Stream.OpenInOrder(events, idxs)
    requires forall k :: 0 <= k < |events| ==> Stream.Legal(events, k)
    requires id != "" || NoPanics(TellAll(AllFrames(events, idxs, decode), marshal))
    ensures ArgsOf(EncodeAll(TellAll(AllFrames(events, idxs, decode), marshal)).frames, id) ==
            WholeArguments(events, |events|, s, marshal)
  {
    assert StartsCall(events[s], id);
    ArgumentsAtEnd(events, idxs, s, id, decode, marshal);
  }

  // ---- Calls of a whole stream are finished ------------------------------------------------------

  /** All frames of a stream that is read to its end. */
  function AllFrames(events: seq<Stream.Event>, idxs: seq<int>, decode: Stream.Decoder): seq<Stream.Frame>
    requires Stream.AllOpen(events, idxs)
  {
    Stream.Frames(events, |events|, decode) + Stream.UseFramesOf(Stream.OpenBlocks(events, idxs, decode))
  }

  predicate Announces(frame: Stream.Frame, id: string) { frame.ToolUseFrame? && frame.id == id }

  ghost predicate Announced(frames: seq<Stream.Frame>, id: string) {
    exists j :: 0 <= j < |frames| && Announces(frames[j], id)
  }

  lemma AnnouncedMore(a: seq<Stream.Frame>, b: seq<Stream.Frame>, id: string)
    ensures Announced(a, id) || Announced(b, id) ==> Announced(a + b, id)
  {
    if j :| 0 <= j < |a| && Announces(a[j], id) {
      assert Announces((a + b)[j], id);
    }
    if j :| 0 <= j < |b| && Announces(b[j], id) {
      assert Announces((a + b)[|a| + j], id);
    }
  }

  lemma BlockAnnounced(events: seq<Stream.Event>, s: nat, t: nat, id: string, decode: Stream.Decoder)
    requires s < t <= |events| && StartsCall(events[s], id)
    ensures Announced(Stream.UseFrames(Stream.BlockOver(events, s, t, decode)), id)
  {
    assert Announces(Stream.UseFrames(Stream.BlockOver(events, s, t, decode))[0], id);
  }

  /** A call's block is open until it is announced. */
  lemma {:induction false} OpenOrAnnounced(events: seq<Stream.Event>, n: nat, s: nat, id: string,
                                           decode: Stream.Decoder)
    requires s < n <= |events| && StartsCall(events[s], id) && forall k :: 0 <= k < n ==> Stream.Legal(events, k)
    ensures OpenFrom(events, n, s) || Announced(Stream.Frames(events, n, decode), id)
  {
    if n > s + 1 {
      var m := n - 1;
      OpenOrAnnounced(events, m, s, id, decode);
      OpenStays(events, m, s);
      AnnouncedMore(Stream.Frames(events, m, decode), Stream.FramesAt(events, m, decode), id);
      if OpenFrom(events, m, s) && !OpenFrom(events, n, s) {
        BlockAnnounced(events, s, m, id, decode);
      }
    }
  }

  lemma {:induction false} OpenIsAnnounced(events: seq<Stream.Event>, idxs: seq<int>, s: nat, id: string,
                                           decode: Stream.Decoder)
    requires s < |events| && StartsCall(events[s], id) && OpenFrom(events, |events|, s)
    requires Stream.AllOpen(events, idxs) && events[s].index in idxs
    ensures Announced(Stream.UseFramesOf(Stream.OpenBlocks(events, idxs, decode)), id)
  {
    var rest, i := idxs[..|idxs| - 1], idxs[|idxs| - 1];
    var o := Stream.OpenAt(events, |events|, i).value;
    var blocks, b := Stream.OpenBlocks(events, rest, decode), Stream.BlockOver(events, o, |events|, decode);
    assert (blocks + [b])[..|blocks|] == blocks;
    AnnouncedMore(Stream.UseFramesOf(blocks), Stream.UseFrames(b), id);
    if i == events[s].index {
      BlockAnnounced(events, s, |events|, id, decode);
    } else {
      OpenIsAnnounced(events, rest, s, id, decode);
    }
  }

  /** Argument frames belong to a call that was started. */
  lemma {:induction false} ArguedIsStarted(events: seq<Stream.Event>, n: nat, decode: Stream.Decoder, j: nat)
    returns (s: nat)
    requires n <= |events| && j < |Stream.Frames(events, n, decode)| &&
             Stream.Frames(events, n, decode)[j].ToolArgsFrame?
    ensures s < n && StartsCall(events[s], Stream.Frames(events, n, decode)[j].id)
  {
    var before := Stream.Frames(events, n - 1, decode);
    if j < |before| {
      s := ArguedIsStarted(events, n - 1, decode, j);
    } else {
      s := StartOf(events, n - 1, decode, j - |before|);
    }
  }

  lemma StartOf(events: seq<Stream.Event>, n: nat, decode: Stream.Decoder, j: nat) returns (s: nat)
    requires n < |events| && j < |Stream.FramesAt(events, n, decode)| &&
             Stream.FramesAt(events, n, decode)[j].ToolArgsFrame?
    ensures s <= n && StartsCall(events[s], Stream.FramesAt(events, n, decode)[j].id)
  {
    s := if events[n].BlockStart? then n else Stream.OpenAt(events, n, events[n].index).value;
  }

  lemma {:induction false} OnlyAnnouncements(blocks: seq<Block>, j: nat)
    requires j < |Stream.UseFramesOf(blocks)|
    ensures Stream.UseFramesOf(blocks)[j].ToolUseFrame?
  {
    if j < |Stream.UseFramesOf(blocks[..|blocks| - 1])| {
      OnlyAnnouncements(blocks[..|blocks| - 1], j);
    }
  }

  lemma {:induction false} ToldAt(frames: seq<Stream.Frame>, marshal: seq<(string, string)> -> string, j: nat)
    requires j < |frames|
    ensures |TellAll(frames, marshal)| == |frames| && TellAll(frames, marshal)[j] == Tell(frames[j], marshal)
  {
    ToldLength(frames, marshal);
    ToldLength(frames[..|frames| - 1], marshal);
    if j < |frames| - 1 {
      ToldAt(frames[..|frames| - 1], marshal, j);
    }
  }

  lemma {:induction false} ToldLength(frames: seq<Stream.Frame>, marshal: seq<(string, string)> -> string)
    ensures |TellAll(frames, marshal)| == |frames|
  {
    if frames != [] {
      ToldLength(frames[..|frames| - 1], marshal);
    }
  }

  /** Every call of a whole stream is announced. */
  lemma CallAnnounced(events: seq<Stream.Event>, idxs: seq<int>, decode: Stream.Decoder, j: nat)
    requires Stream.OpenInOrder(events, idxs) && forall k :: 0 <= k < |events| ==> Stream.Legal(events, k)
    requires j < |AllFrames(events, idxs, decode)| && AllFrames(events, idxs, decode)[j].ToolArgsFrame?
    ensures Announced(AllFrames(events, idxs, decode), AllFrames(events, idxs, decode)[j].id)
  {
    var read := Stream.Frames(events, |events|, decode);
    var ends := Stream.UseFramesOf(Stream.OpenBlocks(events, idxs, decode));
    var id := AllFrames(events, idxs, decode)[j].id;
    if j < |read| {
      var s := ArguedIsStarted(events, |events|, decode, j);
      OpenOrAnnounced(events, |events|, s, id, decode);
      if OpenFrom(events, |events|, s) {
        OpenIsAnnounced(events, idxs, s, id, decode);
      }
      AnnouncedMore(read, ends, id);
    } else {
      OnlyAnnouncements(Stream.OpenBlocks(events, idxs, decode), j - |read|);
    }
  }

  /** Main result: a stream that is read to its end leaves no call open at the client; only a
      stream that is cut off does. */
  lemma WholeStreamFinishes(events: seq<Stream.Event>, idxs: seq<int>, decode: Stream.Decoder,
                            marshal: seq<(string, string)> -> string)
    requires Stream.OpenInOrder(events, idxs) && forall k :: 0 <= k < |events| ==> Stream.Legal(events, k)
    ensures CallsFinished(TellAll(AllFrames(events, idxs, decode), marshal))
  {
    var frames := AllFrames(events, idxs, decode);
    var told := TellAll(frames, marshal);
    forall k | 0 <= k < |told| ensures FinishedCall(told, k) {
      ToldFinished(events, idxs, decode, marshal, k);
    }
  }

  lemma ToldFinished(events: seq<Stream.Event>, idxs: seq<int>, decode: Stream.Decoder,
                     marshal: seq<(string, string)> -> string, k: nat)
    requires Stream.OpenInOrder(events, idxs) && forall j :: 0 <= j < |events| ==> Stream.Legal(events, j)
    requires k < |TellAll(AllFrames(events, idxs, decode), marshal)|
    ensures FinishedCall(TellAll(AllFrames(events, idxs, decode), marshal), k)
  {
    var frames := AllFrames(events, idxs, decode);
    var told := TellAll(frames, marshal);
    ToldLength(frames, marshal);
    ToldAt(frames, marshal, k);
    if told[k].ToolArgs? {
      CallAnnounced(events, idxs, decode, k);
      var j :| 0 <= j < |frames| && Announces(frames[j], told[k].id);
      ToldAt(frames, marshal, j);
      assert EndsCall(told[j], told[k].id);
    }
  }
}
