/** The fragments a client is sent while a stream is read, event by event
    (internal/agent/loop.go:1050-1116). */
module StreamFrames {
  import opened Provider
  import opened StreamAssembly
  import opened Selections

  datatype Kind = Words | Thoughts | Arguments

  predicate OfKind(f: Frame, kind: Kind) {
    match kind
    case Words => f.TextFrame?
    case Thoughts => f.ThinkingFrame?
    case Arguments => f.ToolArgsFrame?
  }

  /** The frames of one kind, in order. */
  function Picked(frames: seq<Frame>, kind: Kind): seq<Frame> {
    if frames == [] then [] else
    var rest, f := Picked(frames[..|frames| - 1], kind), frames[|frames| - 1];
    if OfKind(f, kind) then rest + [f] else rest
  }

  lemma {:induction false} PickedJoin(a: seq<Frame>, b: seq<Frame>, kind: Kind)
    ensures Picked(a + b, kind) == Picked(a, kind) + Picked(b, kind)
  {
    if b == [] {
      assert a + b == a;
    } else {
      PickedJoin(a, b[..|b| - 1], kind);
      assert (a + b)[..|a + b| - 1] == a + b[..|b| - 1];
    }
  }

  lemma PickedOne(frames: seq<Frame>, kind: Kind)
    requires |frames| == 1
    ensures Picked(frames, kind) == if OfKind(frames[0], kind) then frames else []
  {
    assert frames[..0] == [];
  }

  /** Event k brings a fragment for an open block. */
  predicate Brings(events: seq<Event>, k: nat) {
    k < |events| && events[k].BlockDelta? && OpenAt(events, k, events[k].index).Some?
  }

  /** The block event k brings a fragment for, as it was started. */
  function BlockFor(events: seq<Event>, k: nat): Block
    requires Brings(events, k)
  {
    events[OpenAt(events, k, events[k].index).value].block.value
  }

  predicate StartsCall(events: seq<Event>, k: nat) {
    k < |events| && events[k].BlockStart? && events[k].block.Some? && events[k].block.value.ToolUse?
  }

  /** Event k has something to send: a fragment of text or thinking, the start of a call, or a
      non-empty fragment of its arguments. */
  predicate Sends(events: seq<Event>, kind: Kind, k: nat) {
    match kind
    case Words => Brings(events, k) && BlockFor(events, k).Text?
    case Thoughts => Brings(events, k) && BlockFor(events, k).Thinking?
    case Arguments =>
      StartsCall(events, k) || (Brings(events, k) && BlockFor(events, k).ToolUse? && events[k].delta != "")
  }

  /** What event k sends: its fragment, and for a call the id and the name of its block. */
  predicate SentFor(events: seq<Event>, k: nat, f: Frame) {
    match f
    case TextFrame(delta) => Brings(events, k) && delta == events[k].delta
    case ThinkingFrame(delta) => Brings(events, k) && delta == events[k].delta
    case ToolArgsFrame(id, name, delta) =>
      || (StartsCall(events, k) && Names(events[k].block.value, id, name) && delta == "")
      || (Brings(events, k) && Names(BlockFor(events, k), id, name) && delta == events[k].delta)
    case _ => false
  }

  predicate Names(b: Block, id: string, name: string) {
    b.ToolUse? && b.useId == id && b.toolName == name
  }

  ghost function SendsAt(events: seq<Event>, kind: Kind): nat -> bool {
    (k: nat) => Sends(events, kind, k)
  }

  ghost function SentAs(events: seq<Event>): (Frame, nat) -> bool {
    (f: Frame, k: nat) => SentFor(events, k, f)
  }

  lemma EventSends(events: seq<Event>, n: nat, kind: Kind, decode: Decoder)
    requires n < |events|
    ensures var frames := Picked(FramesAt(events, n, decode), kind);
            |frames| == (if Sends(events, kind, n) then 1 else 0) && (frames != [] ==> SentFor(events, n, frames[0]))
  {
    var frames := FramesAt(events, n, decode);
    if |frames| == 1 {
      PickedOne(frames, kind);
    }
  }

  ghost function PickedUpTo(events: seq<Event>, kind: Kind, decode: Decoder): nat -> seq<Frame> {
    (n: nat) => if n <= |events| then Picked(Frames(events, n, decode), kind) else []
  }

  /** Main result: of each kind the client is sent exactly one frame for every event that brings
      something of it, in the order the events came, with the event's own fragment. */
  lemma FramesInOrder(events: seq<Event>, n: nat, kind: Kind, decode: Decoder) returns (at: seq<nat>)
    requires n <= |events|
    ensures Positions(at, n, SendsAt(events, kind))
    ensures var frames := Picked(Frames(events, n, decode), kind);
            Matched(at, |frames|, Standing(frames, SentAs(events)))
  {
    var part, sends, sent := PickedUpTo(events, kind, decode), SendsAt(events, kind), SentAs(events);
    forall k: nat | k < n ensures GrewBy(part(k), part(k + 1), sends(k), k, sent) {
      PartGrows(events, k, kind, decode);
    }
    FirstPart(events, kind, decode);
    at := SelectedAll(n, part, sends, sent);
    PartIs(events, n, kind, decode);
  }

  lemma PartGrows(events: seq<Event>, k: nat, kind: Kind, decode: Decoder)
    requires k < |events|
    ensures GrewBy(PickedUpTo(events, kind, decode)(k), PickedUpTo(events, kind, decode)(k + 1),
                   SendsAt(events, kind)(k), k, SentAs(events))
  {
    PickedNext(events, k, kind, decode);
  }

  lemma FirstPart(events: seq<Event>, kind: Kind, decode: Decoder)
    ensures PickedUpTo(events, kind, decode)(0) == []
  {
  }

  lemma PartIs(events: seq<Event>, n: nat, kind: Kind, decode: Decoder)
    requires n <= |events|
    ensures PickedUpTo(events, kind, decode)(n) == Picked(Frames(events, n, decode), kind)
  {
  }

  lemma PickedNext(events: seq<Event>, n: nat, kind: Kind, decode: Decoder)
    requires n < |events|
    ensures GrewBy(Picked(Frames(events, n, decode), kind), Picked(Frames(events, n + 1, decode), kind),
                   Sends(events, kind, n), n, SentAs(events))
  {
    var more := Picked(FramesAt(events, n, decode), kind);
    EventSends(events, n, kind, decode);
    PickedJoin(Frames(events, n, decode), FramesAt(events, n, decode), kind);
  }
}
