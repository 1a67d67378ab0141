/** Assembly of one provider stream into an assistant message (internal/agent/loop.go:995-1166,
    1555-1601). */
module StreamAssembly {
  import opened Provider
  import opened Sets

  datatype Event =
    | BlockStart(index: int, block: Option<Block>)
    | BlockDelta(index: int, delta: string, sigDelta: string)
    | BlockStop(index: int)
    | MessageStop(stop: StopReason, usage: Option<Usage>)
    | StreamError

  /** Frames sent to the client while the stream is read. */
  datatype Frame =
    | TextFrame(delta: string)
    | ThinkingFrame(delta: string)
    | ToolArgsFrame(id: string, name: string, delta: string)
    | ToolUseFrame(id: string, name: string, input: seq<(string, string)>)

  datatype TurnEnd = TurnEnd(stop: StopReason, usage: Option<Usage>)

  /** The JSON decoder for tool arguments; None stands for a parse error. */
  type Decoder = string -> Option<seq<(string, string)>>

  const BAD_ARGS := "tool arguments are not valid JSON"

  // ---- Accumulators --------------------------------------------------------------------

  datatype Accumulator = Accumulator(block: Block, text: string, signature: string)

  predicate Collects(block: Block) {
    block.Text? || block.Thinking? || block.ToolUse?
  }

  /** The block that a start block and its collected deltas amount to. */
  function Finalize(a: Accumulator, decode: Decoder): Block {
    match a.block
    case Text(_, cp) => Text(a.text, cp)
    case Thinking(_, sig, cp) => Thinking(a.text, if a.signature != "" then a.signature else sig, cp)
    case ToolUse(id, name, input, argsError) =>
      if a.text == "" then a.block
      else (match decode(a.text)
            case None => ToolUse(id, name, input, BAD_ARGS)
            case Some(args) => ToolUse(id, name, args, argsError))
    case _ => a.block
  }

  function Max(a: nat, b: nat): nat { if a < b then b else a }

  function MergeUsage(was: Option<Usage>, now: Option<Usage>): Option<Usage> {
    match (was, now)
    case (None, _) => now
    case (_, None) => was
    case (Some(a), Some(b)) =>
      Some(Usage(Max(a.input, b.input), Max(a.output, b.output), Max(a.cacheRead, b.cacheRead),
                 Max(a.cacheWrite, b.cacheWrite), Max(a.reasoning, b.reasoning)))
  }

  // ---- Reference: which events belong to which block --------------------------------------

  /** The event that opened the block open at index i after n events, if there is one. */
  function OpenAt(events: seq<Event>, n: nat, i: int): (s: Option<nat>)
    requires n <= |events|
    ensures s.Some? ==>
              s.value < n && events[s.value].BlockStart? && events[s.value].index == i && events[s.value].block.Some?
  {
    if n == 0 then None else
    var e := events[n - 1];
    if e.BlockStart? && e.index == i && e.block.Some? then Some(n - 1)
    else if e.BlockStop? && e.index == i then None
    else OpenAt(events, n - 1, i)
  }

  /** The deltas for index i among events a..b, joined. */
  function Deltas(events: seq<Event>, i: int, a: nat, b: nat): string
    requires a <= b <= |events|
  {
    if a == b then "" else
    var e := events[b - 1];
    if e.BlockDelta? && e.index == i then Deltas(events, i, a, b - 1) + e.delta else Deltas(events, i, a, b - 1)
  }

  function Signatures(events: seq<Event>, i: int, a: nat, b: nat): string
    requires a <= b <= |events|
  {
    if a == b then "" else
    var e := events[b - 1];
    if e.BlockDelta? && e.index == i then Signatures(events, i, a, b - 1) + e.sigDelta
    else Signatures(events, i, a, b - 1)
  }

  /** The block opened by event s and closed before event t: its content is the
      concatenation of its own deltas. */
  function BlockOver(events: seq<Event>, s: nat, t: nat, decode: Decoder): Block
    requires s < t <= |events| && events[s].BlockStart? && events[s].block.Some?
  {
    var i := events[s].index;
    Finalize(Accumulator(events[s].block.value, Deltas(events, i, s + 1, t), Signatures(events, i, s + 1, t)), decode)
  }

  /** The blocks closed by the first n events, in closing order. */
  function ClosedBlocks(events: seq<Event>, n: nat, decode: Decoder): seq<Block>
    requires n <= |events|
  {
    if n == 0 then [] else
    var e, before := events[n - 1], ClosedBlocks(events, n - 1, decode);
    if e.BlockStop? && OpenAt(events, n - 1, e.index).Some?
    then before + [BlockOver(events, OpenAt(events, n - 1, e.index).value, n - 1, decode)]
    else before
  }

  predicate Ascending(idxs: seq<int>) {
    forall a, b :: 0 <= a < b < |idxs| ==> idxs[a] < idxs[b]
  }

  /** The blocks still open when the stream ends, in the given order of indices. */
  function OpenBlocks(events: seq<Event>, idxs: seq<int>, decode: Decoder): seq<Block>
    requires AllOpen(events, idxs)
  {
    if idxs == [] then [] else
    var rest, i := idxs[..|idxs| - 1], idxs[|idxs| - 1];
    OpenBlocks(events, rest, decode) + [BlockOver(events, OpenAt(events, |events|, i).value, |events|, decode)]
  }

  function CallOf(b: Block): Call
    requires b.ToolUse?
  {
    Call(b.useId, b.toolName, b.input, b.argsError)
  }

  function CallsOf(content: seq<Block>): seq<Call> {
    if content == [] then [] else
    var b := content[|content| - 1];
    CallsOf(content[..|content| - 1]) + (if b.ToolUse? then [CallOf(b)] else [])
  }

  /** The frame that announces a finished call. */
  function UseFrames(b: Block): seq<Frame> {
    if b.ToolUse? then [ToolUseFrame(b.useId, b.toolName, b.input)] else []
  }

  function UseFramesOf(blocks: seq<Block>): seq<Frame> {
    if blocks == [] then [] else UseFramesOf(blocks[..|blocks| - 1]) + UseFrames(blocks[|blocks| - 1])
  }

  /** The frames event n gives rise to: a fragment is forwarded once, when it arrives. */
  function FramesAt(events: seq<Event>, n: nat, decode: Decoder): seq<Frame>
    requires n < |events|
  {
    match events[n]
    case BlockStart(_, Some(ToolUse(id, name, _, _))) => [ToolArgsFrame(id, name, "")]
    case BlockDelta(i, delta, _) =>
      (match OpenAt(events, n, i)
       case None => []
       case Some(s) =>
         match events[s].block.value
         case Text(_, _) => [TextFrame(delta)]
         case Thinking(_, _, _) => [ThinkingFrame(delta)]
         case ToolUse(id, name, _, _) => if delta != "" then [ToolArgsFrame(id, name, delta)] else []
         case _ => [])
    case BlockStop(i) =>
      (match OpenAt(events, n, i)
       case None => []
       case Some(s) => UseFrames(BlockOver(events, s, n, decode)))
    case _ => []
  }

  function Frames(events: seq<Event>, n: nat, decode: Decoder): seq<Frame>
    requires n <= |events|
  {
    if n == 0 then [] else Frames(events, n - 1, decode) + FramesAt(events, n - 1, decode)
  }

  function EndAfter(events: seq<Event>, n: nat): TurnEnd
    requires n <= |events|
  {
    if n == 0 then TurnEnd(StopUnknown, None) else
    var end := EndAfter(events, n - 1);
    match events[n - 1]
    case MessageStop(stop, usage) =>
      TurnEnd(if stop != StopUnknown then stop else end.stop,
              if usage.Some? then MergeUsage(end.usage, usage) else end.usage)
    case _ => end
  }

  /** The adapter contract: no error event, no second start on an open index, no delta
      without an open block. */
  predicate Legal(events: seq<Event>, n: nat)
    requires n < |events|
  {
    match events[n]
    case StreamError => false
    case BlockStart(i, Some(_)) => OpenAt(events, n, i).None?
    case BlockDelta(i, _, _) => OpenAt(events, n, i).Some?
    case _ => true
  }

  // ---- The source's loop ---------------------------------------------------------------------

  datatype Failure = StreamFailed | ContractViolated | EmitFailed | RunCancelled

  /** What the environment decides: `cancelled(n)` at the n-th receive, `accepts(k)` for the
      k-th frame. */
  datatype Client = Client(cancelled: nat -> bool, accepts: nat -> bool)

  /** The run is never cancelled and every frame is delivered. */
  ghost predicate Patient(client: Client) {
    forall n :: !client.cancelled(n) && client.accepts(n)
  }

  /** Why reading stops at event n, if it does. */
  ghost function HaltAt(events: seq<Event>, n: nat, client: Client, decode: Decoder): Option<Failure>
    requires n <= |events|
  {
    if client.cancelled(n) then Some(RunCancelled)
    else if n < |events| then EventHalt(events, n, client, decode)
    else None
  }

  /** An error of the provider, a breach of its contract, or a fragment that the client does
      not get. The frame that announces a finished call may be lost. */
  ghost function EventHalt(events: seq<Event>, n: nat, client: Client, decode: Decoder): Option<Failure>
    requires n < |events|
  {
    if events[n].StreamError? then Some(StreamFailed)
    else if !Legal(events, n) then Some(ContractViolated)
    else if !events[n].BlockStop? && FramesAt(events, n, decode) != [] &&
            !client.accepts(|Frames(events, n + 1, decode)| - 1) then Some(EmitFailed)
    else None
  }

  /** Nothing stops the reader at the first n receives. */
  ghost predicate GoesWell(events: seq<Event>, n: nat, client: Client, decode: Decoder) {
    n <= |events| + 1 && forall m: nat :: m < n ==> HaltAt(events, m, client, decode) == None
  }

  /** Reading goes well up to event n, and stops there. */
  ghost predicate HaltsFirst(events: seq<Event>, n: nat, client: Client, decode: Decoder, why: Failure) {
    n <= |events| && HaltAt(events, n, client, decode) == Some(why) && GoesWell(events, n, client, decode)
  }

  /** The accumulators hold exactly the open blocks and their deltas so far. */
  ghost predicate Tracks(events: seq<Event>, n: nat, open: map<int, Accumulator>)
    requires n <= |events|
  {
    && (forall i :: i in open <==> OpenAt(events, n, i).Some?)
    && (forall i :: i in open ==> Holds(events, n, i, open[i]))
  }

  ghost predicate Holds(events: seq<Event>, n: nat, i: int, a: Accumulator)
    requires n <= |events| && OpenAt(events, n, i).Some?
  {
    var s := OpenAt(events, n, i).value;
    && a.block == events[s].block.value
    && (Collects(a.block) ==> a.text == Deltas(events, i, s + 1, n))
    && a.signature == Signatures(events, i, s + 1, n)
  }

  lemma HeldBlock(events: seq<Event>, n: nat, i: int, a: Accumulator, decode: Decoder)
    requires n <= |events| && OpenAt(events, n, i).Some? && Holds(events, n, i, a)
    ensures Finalize(a, decode) == BlockOver(events, OpenAt(events, n, i).value, n, decode)
  {
  }

  /** What the reader has assembled so far. */
  datatype Reading = Reading(open: map<int, Accumulator>, content: seq<Block>, calls: seq<Call>, end: TurnEnd,
                             emitted: seq<Frame>)

  ghost predicate ReadUpTo(events: seq<Event>, n: nat, r: Reading, decode: Decoder) {
    && n <= |events|
    && (forall k :: 0 <= k < n ==> Legal(events, k))
    && Tracks(events, n, r.open) && r.end == EndAfter(events, n)
    && r.content == ClosedBlocks(events, n, decode) && r.calls == CallsOf(r.content)
    && r.emitted == Frames(events, n, decode)
  }

  /** What has been sent when reading stops at event n: a frame that was lost was sent. */
  ghost predicate SentBy(events: seq<Event>, n: nat, emitted: seq<Frame>, why: Option<Failure>, decode: Decoder) {
    n <= |events| && if n < |events| && (why == None || why == Some(EmitFailed))
                     then emitted == Frames(events, n + 1, decode) else emitted == Frames(events, n, decode)
  }

  method OnStart(events: seq<Event>, n: nat, r0: Reading, client: Client, decode: Decoder)
    returns (r: Reading, failure: Option<Failure>)
    requires n < |events| && ReadUpTo(events, n, r0, decode) && events[n].BlockStart? && events[n].block.Some?
    ensures failure.None? ==> ReadUpTo(events, n + 1, r, decode)
    ensures failure == EventHalt(events, n, client, decode) && SentBy(events, n, r.emitted, failure, decode)
    ensures r.calls == CallsOf(r.content)
  {
    r, failure := r0, None;
    var i, block := events[n].index, events[n].block.value;
    if i in r.open {
      return r, Some(ContractViolated);
    }
    r := r.(open := r.open[i := Accumulator(block, "", "")]);
    if block.ToolUse? {
      r := r.(emitted := r.emitted + [ToolArgsFrame(block.useId, block.toolName, "")]);
      if !client.accepts(|r.emitted| - 1) {
        failure := Some(EmitFailed);
      }
    }
    StartTracked(events, n, r0.open, r.open);
  }

  lemma StartTracked(events: seq<Event>, n: nat, open: map<int, Accumulator>, open': map<int, Accumulator>)
    requires n < |events| && Tracks(events, n, open) && events[n].BlockStart? && events[n].block.Some?
    requires open' == open[events[n].index := Accumulator(events[n].block.value, "", "")]
    ensures Tracks(events, n + 1, open')
  {
    forall i | i in open' ensures OpenAt(events, n + 1, i).Some? && Holds(events, n + 1, i, open'[i]) {
      if i != events[n].index {
        assert Holds(events, n, i, open[i]);
      }
    }
  }

  method OnDelta(events: seq<Event>, n: nat, r0: Reading, client: Client, decode: Decoder)
    returns (r: Reading, failure: Option<Failure>)
    requires n < |events| && ReadUpTo(events, n, r0, decode) && events[n].BlockDelta?
    ensures failure.None? ==> ReadUpTo(events, n + 1, r, decode)
    ensures failure == EventHalt(events, n, client, decode) && SentBy(events, n, r.emitted, failure, decode)
    ensures r.calls == CallsOf(r.content)
  {
    r, failure := r0, None;
    var i, delta := events[n].index, events[n].delta;
    if i !in r.open {
      return r, Some(ContractViolated);
    }
    var a := r.open[i];
    assert Holds(events, n, i, a);
    var text := if Collects(a.block) then a.text + delta else a.text;
    r := r.(open := r.open[i := a.(text := text, signature := a.signature + events[n].sigDelta)]);
    DeltaTracked(events, n, r0.open, r.open);
    var frames := match a.block
      case Text(_, _) => [TextFrame(delta)]
      case Thinking(_, _, _) => [ThinkingFrame(delta)]
      case ToolUse(id, name, _, _) => if delta != "" then [ToolArgsFrame(id, name, delta)] else []
      case _ => [];
    r := r.(emitted := r.emitted + frames);
    if frames != [] && !client.accepts(|r.emitted| - 1) {
      failure := Some(EmitFailed);
    }
  }

  lemma DeltaTracked(events: seq<Event>, n: nat, open: map<int, Accumulator>, open': map<int, Accumulator>)
    requires n < |events| && Tracks(events, n, open) && events[n].BlockDelta? && events[n].index in open
    requires var a := open[events[n].index];
             open' == open[events[n].index := a.(text := if Collects(a.block) then a.text + events[n].delta else a.text,
                                                 signature := a.signature + events[n].sigDelta)]
    ensures Tracks(events, n + 1, open')
  {
    forall i | i in open' ensures OpenAt(events, n + 1, i).Some? && Holds(events, n + 1, i, open'[i]) {
      assert Holds(events, n, i, open[i]);
    }
  }

  method OnStop(events: seq<Event>, n: nat, r0: Reading, decode: Decoder) returns (r: Reading)
    requires n < |events| && ReadUpTo(events, n, r0, decode) && events[n].BlockStop?
    ensures ReadUpTo(events, n + 1, r, decode)
  {
    var i := events[n].index;
    r := r0;
    if i in r.open {
      HeldBlock(events, n, i, r.open[i], decode);
      var content, calls, emitted := AppendBlock(Finalize(r.open[i], decode), r.content, r.calls, r.emitted);
      r := Reading(r.open - {i}, content, calls, r.end, emitted);
    }
    StopTracked(events, n, r0.open, r.open);
  }

  lemma StopTracked(events: seq<Event>, n: nat, open: map<int, Accumulator>, open': map<int, Accumulator>)
    requires n < |events| && Tracks(events, n, open) && events[n].BlockStop?
    requires open' == open - {events[n].index}
    ensures Tracks(events, n + 1, open')
  {
    forall i | i in open' ensures OpenAt(events, n + 1, i).Some? && Holds(events, n + 1, i, open'[i]) {
      assert Holds(events, n, i, open[i]);
    }
  }

  lemma OtherTracked(events: seq<Event>, n: nat, open: map<int, Accumulator>)
    requires n < |events| && Tracks(events, n, open)
    requires events[n].MessageStop? || events[n].StreamError? || (events[n].BlockStart? && events[n].block.None?)
    ensures Tracks(events, n + 1, open)
  {
    forall i | i in open ensures OpenAt(events, n + 1, i).Some? && Holds(events, n + 1, i, open[i]) {
      assert Holds(events, n, i, open[i]);
    }
  }

  method OnOther(events: seq<Event>, n: nat, r0: Reading, decode: Decoder) returns (r: Reading)
    requires n < |events| && ReadUpTo(events, n, r0, decode)
    requires events[n].MessageStop? || (events[n].BlockStart? && events[n].block.None?)
    ensures ReadUpTo(events, n + 1, r, decode)
  {
    r := r0;
    OtherTracked(events, n, r.open);
    if events[n].MessageStop? {
      var stop, usage := events[n].stop, events[n].usage;
      r := r.(end := TurnEnd(if stop != StopUnknown then stop else r.end.stop,
                             if usage.Some? then MergeUsage(r.end.usage, usage) else r.end.usage));
    }
  }

  /** The indices still open at the end, each once, in ascending order. */
  ghost predicate OpenInOrder(events: seq<Event>, idxs: seq<int>) {
    Ascending(idxs) && forall i :: i in idxs <==> OpenAt(events, |events|, i).Some?
  }

  /** Natural end of the stream: finish the blocks still open in ascending index order. */
  method Close(events: seq<Event>, r0: Reading, decode: Decoder) returns (r: Reading, ghost idxs: seq<int>)
    requires Tracks(events, |events|, r0.open) && r0.calls == CallsOf(r0.content)
    ensures OpenInOrder(events, idxs) && r.end == r0.end && r.calls == CallsOf(r.content)
    ensures r.content == r0.content + OpenBlocks(events, idxs, decode)
    ensures r.emitted == r0.emitted + UseFramesOf(OpenBlocks(events, idxs, decode))
  {
    var keys := SortedKeys(r0.open.Keys);
    idxs := keys;
    var tail := FinishOpen(events, r0.open, keys, decode);
    r := AppendBlocks(r0, tail);
  }

  method FinishOpen(ghost events: seq<Event>, open: map<int, Accumulator>, keys: seq<int>, decode: Decoder)
    returns (blocks: seq<Block>)
    requires Tracks(events, |events|, open) && forall i :: i in keys ==> i in open
    ensures AllOpen(events, keys) && blocks == OpenBlocks(events, keys, decode)
  {
    blocks := [];
    for k := 0 to |keys|
      invariant AllOpen(events, keys[..k]) && blocks == OpenBlocks(events, keys[..k], decode)
    {
      assert keys[..k + 1][..k] == keys[..k];
      assert keys[k] in keys;
      HeldBlock(events, |events|, keys[k], open[keys[k]], decode);
      blocks := blocks + [Finalize(open[keys[k]], decode)];
    }
    assert keys[..|keys|] == keys;
  }

  method AppendBlocks(r0: Reading, blocks: seq<Block>) returns (r: Reading)
    requires r0.calls == CallsOf(r0.content)
    ensures r.content == r0.content + blocks && r.calls == CallsOf(r.content)
    ensures r.emitted == r0.emitted + UseFramesOf(blocks) && r.end == r0.end
  {
    var content, calls, emitted := r0.content, r0.calls, r0.emitted;
    for k := 0 to |blocks|
      invariant AppendedUpTo(r0, blocks, k, content, emitted) && calls == CallsOf(content)
    {
      AppendedNext(r0, blocks, k, content, emitted);
      content, calls, emitted := AppendBlock(blocks[k], content, calls, emitted);
    }
    assert blocks[..|blocks|] == blocks;
    r := Reading(r0.open, content, calls, r0.end, emitted);
  }

  ghost predicate AppendedUpTo(r0: Reading, blocks: seq<Block>, k: nat, content: seq<Block>, emitted: seq<Frame>) {
    k <= |blocks| && content == r0.content + blocks[..k] && emitted == r0.emitted + UseFramesOf(blocks[..k])
  }

  lemma AppendedNext(r0: Reading, blocks: seq<Block>, k: nat, content: seq<Block>, emitted: seq<Frame>)
    requires k < |blocks| && AppendedUpTo(r0, blocks, k, content, emitted)
    ensures AppendedUpTo(r0, blocks, k + 1, content + [blocks[k]], emitted + UseFrames(blocks[k]))
  {
    assert r0.content + blocks[..k] + [blocks[k]] == r0.content + blocks[..k + 1];
    var sent := UseFramesNext(blocks, k);
    assert r0.emitted + UseFramesOf(blocks[..k]) + UseFrames(blocks[k]) == r0.emitted + sent;
  }

  lemma UseFramesNext(blocks: seq<Block>, k: nat) returns (sent: seq<Frame>)
    requires k < |blocks|
    ensures sent == UseFramesOf(blocks[..k + 1]) == UseFramesOf(blocks[..k]) + UseFrames(blocks[k])
  {
    assert blocks[..k + 1][..k] == blocks[..k];
    sent := UseFramesOf(blocks[..k + 1]);
  }

  ghost predicate AllOpen(events: seq<Event>, keys: seq<int>) {
    forall i :: i in keys ==> OpenAt(events, |events|, i).Some?
  }

  /** One receive: the cancellation, or the next event. */
  method OnEvent(events: seq<Event>, n: nat, r0: Reading, client: Client, decode: Decoder)
    returns (r: Reading, failure: Option<Failure>)
    requires n < |events| && ReadUpTo(events, n, r0, decode)
    ensures failure == HaltAt(events, n, client, decode) && (failure.None? ==> ReadUpTo(events, n + 1, r, decode))
    ensures SentBy(events, n, r.emitted, failure, decode) && r.calls == CallsOf(r.content)
  {
    r, failure := r0, None;
    if client.cancelled(n) {
      failure := Some(RunCancelled);
    } else if events[n].StreamError? {
      failure := Some(StreamFailed);
    } else if events[n].BlockStart? && events[n].block.Some? {
      r, failure := OnStart(events, n, r, client, decode);
    } else if events[n].BlockDelta? {
      r, failure := OnDelta(events, n, r, client, decode);
    } else if events[n].BlockStop? {
      r := OnStop(events, n, r, decode);
    } else {
      r := OnOther(events, n, r, decode);
    }
  }

  /** Nothing stops the reader, or the first thing that does is told. */
  ghost predicate Halts(events: seq<Event>, client: Client, emitted: seq<Frame>, why: Option<Failure>,
                        decode: Decoder) {
    match why
    case None => GoesWell(events, |events| + 1, client, decode)
    case Some(f) => exists n: nat :: HaltsFirst(events, n, client, decode, f) && SentBy(events, n, emitted, why, decode)
  }

  lemma HaltsHere(events: seq<Event>, n: nat, client: Client, emitted: seq<Frame>, why: Option<Failure>,
                  decode: Decoder)
    requires n <= |events| && GoesWell(events, n, client, decode) && why == HaltAt(events, n, client, decode)
    requires SentBy(events, n, emitted, why, decode)
    ensures if why.Some? then Halts(events, client, emitted, why, decode)
            else GoesWell(events, n + 1, client, decode)
  {
    assert why.Some? ==> HaltsFirst(events, n, client, decode, why.value);
  }

  /** Read a whole stream. Without a failure the message holds the closed blocks in closing
      order and then the open ones by index, and every fragment was forwarded once. */
  method Consume(events: seq<Event>, client: Client, decode: Decoder)
    returns (r: Reading, failure: Option<Failure>, ghost idxs: seq<int>)
    ensures r.calls == CallsOf(r.content)
    ensures failure.None? ==>
              (forall n :: 0 <= n < |events| ==> Legal(events, n)) && r.end == EndAfter(events, |events|) &&
              OpenInOrder(events, idxs) &&
              r.content == ClosedBlocks(events, |events|, decode) + OpenBlocks(events, idxs, decode) &&
              r.emitted == Frames(events, |events|, decode) + UseFramesOf(OpenBlocks(events, idxs, decode))
    ensures Halts(events, client, r.emitted, failure, decode)
  {
    r, failure, idxs := Reading(map[], [], [], TurnEnd(StopUnknown, None), []), None, [];
    for n := 0 to |events|
      invariant ReadUpTo(events, n, r, decode) && failure.None?
      invariant GoesWell(events, n, client, decode)
    {
      r, failure := OnEvent(events, n, r, client, decode);
      HaltsHere(events, n, client, r.emitted, failure, decode);
      if failure.Some? {
        return;
      }
    }
    HaltsHere(events, |events|, client, r.emitted, HaltAt(events, |events|, client, decode), decode);
    if client.cancelled(|events|) {
      return r, Some(RunCancelled), idxs;
    }
    r, idxs := Close(events, r, decode);
  }

  /** Append one finished block; a call is announced even when the frame cannot be delivered. */
  method AppendBlock(b: Block, content0: seq<Block>, calls0: seq<Call>, emitted0: seq<Frame>)
    returns (content: seq<Block>, calls: seq<Call>, emitted: seq<Frame>)
    requires calls0 == CallsOf(content0)
    ensures content == content0 + [b] && calls == CallsOf(content)
    ensures emitted == emitted0 + UseFrames(b)
  {
    content, calls, emitted := content0 + [b], calls0, emitted0;
    assert content[..|content| - 1] == content0;
    if b.ToolUse? {
      calls := calls + [CallOf(b)];
      emitted := emitted + [ToolUseFrame(b.useId, b.toolName, b.input)];
    }
  }

  /** The keys in ascending order (sort.Ints over the map's keys). */
  method SortedKeys(keys: set<int>) returns (idxs: seq<int>)
    ensures Ascending(idxs) && forall i :: i in idxs <==> i in keys
  {
    idxs := [];
    var rest := keys;
    while rest != {}
      invariant rest <= keys && Ascending(idxs)
      invariant forall i :: i in idxs <==> i in keys && i !in rest
      invariant forall i, j :: i in idxs && j in rest ==> i < j
      decreases |rest|
    {
      var m := Least(rest);
      assert forall a :: 0 <= a < |idxs| ==> idxs[a] in idxs;
      idxs := idxs + [m];
      rest := rest - {m};
    }
  }

  method Least(s: set<int>) returns (m: int)
    requires s != {}
    ensures m in s && forall i :: i in s ==> m <= i
  {
    m := Pick(s);
    var rest := s - {m};
    while rest != {}
      invariant m in s && rest <= s
      invariant forall i :: i in s && i !in rest ==> m <= i
      decreases |rest|
    {
      var x := Pick(rest);
      if x < m {
        m := x;
      }
      rest := rest - {x};
    }
  }
}
