/** The stream a client receives is well bracketed, wherever a write fails
    (internal/chatapi/emitter.go:138-418). */
module EmitterProperties {
  import opened Provider
  import opened Emitter

  // ---- The bracket language ------------------------------------------------------------

  /** A reader of the stream: which blocks are open, which calls were started and ended. `ok`
      says that text and reasoning fragments stood inside their block, that no call was
      started twice, and that no text or reasoning block was left open at the finish frame;
      `callsOk` that no fragment or end of a call came after its end. Calls may be left open:
      `started` and `ended` tell. */
  datatype Reader = Reader(reasoning: bool, text: bool, started: set<string>, ended: set<string>, ok: bool,
                           callsOk: bool)

  const IDLE := Reader(false, false, {}, {}, true, true)

  function Read(r: Reader, w: Wire): Reader {
    match w
    case ReasoningStart => r.(ok := r.ok && !r.reasoning, reasoning := true)
    case ReasoningDelta(_) => r.(ok := r.ok && r.reasoning)
    case ReasoningEnd => r.(ok := r.ok && r.reasoning, reasoning := false)
    case TextStart => r.(ok := r.ok && !r.text, text := true)
    case TextDelta(_) => r.(ok := r.ok && r.text)
    case TextEnd => r.(ok := r.ok && r.text, text := false)
    case CallStart(id, _) => r.(ok := r.ok && id !in r.started, started := r.started + {id})
    case CallDelta(id, _) => r.(ok := r.ok && (id == "" || id in r.started), callsOk := r.callsOk && id !in r.ended)
    case CallEnd(id) =>
      r.(ok := r.ok && (id == "" || id in r.started), callsOk := r.callsOk && id !in r.ended,
         ended := if id == "" then r.ended else r.ended + {id})
    case Finish(_, _, _) => r.(ok := r.ok && !r.reasoning && !r.text)
    case _ => r
  }

  function ReadAll(r: Reader, frames: seq<Wire>): Reader {
    if frames == [] then r else Read(ReadAll(r, frames[..|frames| - 1]), frames[|frames| - 1])
  }

  lemma {:induction false} ReadConcat(r: Reader, a: seq<Wire>, b: seq<Wire>)
    ensures ReadAll(r, a + b) == ReadAll(ReadAll(r, a), b)
  {
    if b == [] {
      assert a + b == a;
    } else {
      ReadConcat(r, a, b[..|b| - 1]);
      assert (a + b)[..|a + b| - 1] == a + b[..|b| - 1];
    }
  }

  lemma ReadShort(r: Reader, frames: seq<Wire>)
    requires |frames| <= 4
    ensures |frames| == 0 ==> ReadAll(r, frames) == r
    ensures |frames| == 1 ==> ReadAll(r, frames) == Read(r, frames[0])
    ensures |frames| == 2 ==> ReadAll(r, frames) == Read(Read(r, frames[0]), frames[1])
    ensures |frames| == 3 ==> ReadAll(r, frames) == Read(Read(Read(r, frames[0]), frames[1]), frames[2])
    ensures |frames| == 4 ==>
              ReadAll(r, frames) == Read(Read(Read(Read(r, frames[0]), frames[1]), frames[2]), frames[3])
  {
    if frames != [] {
      ReadShort(r, frames[..|frames| - 1]);
    }
  }

  lemma {:induction false} OkFromStart(r: Reader, frames: seq<Wire>)
    requires ReadAll(r, frames).ok
    ensures r.ok
  {
    if frames != [] {
      OkFromStart(r, frames[..|frames| - 1]);
    }
  }

  // ---- Encoding a run -------------------------------------------------------------------

  function EncodeAll(events: seq<Event>): Encoded {
    if events == [] then Encoded(FRESH, []) else
    var before := EncodeAll(events[..|events| - 1]);
    var e := Encode(before.flags, events[|events| - 1]);
    Encoded(e.flags, before.frames + e.frames)
  }

  /** The emitter's flags say what a reader of the stream sees open. */
  ghost predicate Agrees(f: Flags, r: Reader) {
    r.ok && r.reasoning == f.thinkOpen && r.text == f.textStarted && r.started == f.toolStarted
  }

  lemma ReadOne(r: Reader, w: Wire)
    ensures ReadAll(r, [w]) == Read(r, w)
  {
    assert [w][..0] == [];
  }

  lemma ReadTwo(r: Reader, v: Wire, w: Wire)
    ensures ReadAll(r, [v, w]) == Read(Read(r, v), w)
  {
    assert [v, w] == [v] + [w];
    ReadConcat(r, [v], [w]);
    ReadOne(r, v);
    ReadOne(Read(r, v), w);
  }

  lemma ThinkingAgrees(f: Flags, r: Reader)
    requires Agrees(f, r)
    ensures Agrees(CloseThinking(f).flags, ReadAll(r, CloseThinking(f).frames))
  {
    if f.thinkOpen {
      ReadOne(r, ReasoningEnd);
    }
  }

  lemma OpenCallAgrees(f: Flags, id: string, name: string, r: Reader)
    requires Agrees(f, r)
    ensures var r' := ReadAll(r, OpenCall(f, id, name).frames);
            Agrees(OpenCall(f, id, name).flags, r') && (id == "" || id in r'.started)
  {
    if id != "" && id !in f.toolStarted {
      ReadOne(r, CallStart(id, name));
    }
  }

  /** What the rest of a call event does to a reader, frame by frame. */
  lemma RestRead(f: Flags, e: Event, r: Reader)
    requires e.ToolArgs? || e.ToolUse?
    ensures ReadAll(r, CallRest(f, e)) ==
            if e.ToolArgs? then (if e.delta == "" then r else Read(r, CallDelta(e.id, e.delta)))
            else if e.id !in f.argsStreamed && e.input.Some? then
              Read(Read(r, CallDelta(e.id, e.input.value)), CallEnd(e.id))
            else Read(r, CallEnd(e.id))
  {
    if e.ToolArgs? {
      if e.delta != "" {
        ReadOne(r, CallDelta(e.id, e.delta));
      }
    } else if e.id !in f.argsStreamed && e.input.Some? {
      ReadTwo(r, CallDelta(e.id, e.input.value), CallEnd(e.id));
    } else {
      ReadOne(r, CallEnd(e.id));
    }
  }

  /** Inside the call, the rest of a call event leaves the blocks and the started calls as
      they are. */
  lemma RestAgrees(f: Flags, e: Event, f': Flags, r: Reader)
    requires (e.ToolArgs? || e.ToolUse?) && (e.id == "" || e.id in r.started) && Agrees(f', r)
    ensures Agrees(f', ReadAll(r, CallRest(f, e)))
  {
    RestRead(f, e, r);
  }

  lemma RestEnds(f: Flags, e: Event, r: Reader)
    requires "" !in r.ended && (e.ToolArgs? || e.ToolUse?)
    ensures CallsAdvance(r, e, ReadAll(r, CallRest(f, e)))
  {
    RestRead(f, e, r);
  }

  lemma CallAgrees(f: Flags, e: Event, r: Reader)
    requires Agrees(f, r) && (e.ToolArgs? || e.ToolUse?)
    ensures Agrees(Encode(f, e).flags, ReadAll(r, Encode(f, e).frames))
  {
    var call := OpenCall(f, e.id, e.name);
    OpenCallAgrees(f, e.id, e.name, r);
    ReadConcat(r, call.frames, CallRest(f, e));
    RestAgrees(f, e, call.flags, ReadAll(r, call.frames));
  }

  /** What a call event writes after the call's start. */
  function CallRest(f: Flags, e: Event): (rest: seq<Wire>)
    requires e.ToolArgs? || e.ToolUse?
    ensures Encode(f, e).frames == OpenCall(f, e.id, e.name).frames + rest && |rest| <= 2
    ensures Encode(f, e).flags.(argsStreamed := f.argsStreamed) == OpenCall(f, e.id, e.name).flags
  {
    var call := OpenCall(f, e.id, e.name);
    if e.ToolArgs? then
      var rest := if e.delta == "" then [] else [CallDelta(e.id, e.delta)];
      assert call.frames + [] == call.frames;
      rest
    else if e.id !in f.argsStreamed && e.input.Some? then [CallDelta(e.id, e.input.value), CallEnd(e.id)]
    else [CallEnd(e.id)]
  }

  lemma TextAgrees(f: Flags, delta: string, r: Reader)
    requires Agrees(f, r)
    ensures Agrees(Encode(f, Event.Text(delta)).flags, ReadAll(r, Encode(f, Event.Text(delta)).frames))
  {
    var closed := CloseThinking(f);
    ThinkingAgrees(f, r);
    var rest := (if f.textStarted then [] else [TextStart]) + [TextDelta(delta)];
    assert Encode(f, Event.Text(delta)).frames == closed.frames + rest;
    ReadConcat(r, closed.frames, rest);
    TextRead(closed.flags, ReadAll(r, closed.frames), delta);
  }

  lemma TextRead(f: Flags, r: Reader, delta: string)
    requires Agrees(f, r)
    ensures Agrees(f.(textStarted := true),
                   ReadAll(r, (if f.textStarted then [] else [TextStart]) + [TextDelta(delta)]))
  {
    if f.textStarted {
      assert [] + [TextDelta(delta)] == [TextDelta(delta)];
      ReadOne(r, TextDelta(delta));
    } else {
      assert [TextStart] + [TextDelta(delta)] == [TextStart, TextDelta(delta)];
      ReadTwo(r, TextStart, TextDelta(delta));
    }
  }

  lemma ReasoningAgrees(f: Flags, delta: string, r: Reader)
    requires Agrees(f, r)
    ensures Agrees(Encode(f, Event.Thinking(delta)).flags, ReadAll(r, Encode(f, Event.Thinking(delta)).frames))
  {
    ReasoningRead(f, r, delta);
  }

  lemma ReasoningRead(f: Flags, r: Reader, delta: string)
    requires Agrees(f, r)
    ensures Agrees(f.(thinkOpen := true),
                   ReadAll(r, (if f.thinkOpen then [] else [ReasoningStart]) + [ReasoningDelta(delta)]))
  {
    if f.thinkOpen {
      assert [] + [ReasoningDelta(delta)] == [ReasoningDelta(delta)];
      ReadOne(r, ReasoningDelta(delta));
    } else {
      assert [ReasoningStart] + [ReasoningDelta(delta)] == [ReasoningStart, ReasoningDelta(delta)];
      ReadTwo(r, ReasoningStart, ReasoningDelta(delta));
    }
  }

  lemma CancelAgrees(f: Flags, r: Reader)
    requires Agrees(f, r)
    ensures Agrees(Encode(f, Cancelled).flags, ReadAll(r, Encode(f, Cancelled).frames))
  {
    var closed := CloseThinking(f);
    ThinkingAgrees(f, r);
    var rest := (if f.textStarted then [TextEnd] else []) + [RunStatus("cancelled")];
    assert Encode(f, Cancelled).frames == closed.frames + rest;
    ReadConcat(r, closed.frames, rest);
    TextEndRead(closed.flags, ReadAll(r, closed.frames));
  }

  lemma TextEndRead(f: Flags, r: Reader)
    requires Agrees(f, r)
    ensures Agrees(f.(textStarted := false),
                   ReadAll(r, (if f.textStarted then [TextEnd] else []) + [RunStatus("cancelled")]))
  {
    if f.textStarted {
      assert [TextEnd] + [RunStatus("cancelled")] == [TextEnd, RunStatus("cancelled")];
      ReadTwo(r, TextEnd, RunStatus("cancelled"));
    } else {
      assert [] + [RunStatus("cancelled")] == [RunStatus("cancelled")];
      ReadOne(r, RunStatus("cancelled"));
    }
  }

  /** Frames a reader's blocks and calls do not depend on. */
  predicate Neutral(w: Wire) {
    w.RunStatus? || w.StepBegin? || w.StepEnd? || w.CallResult? || w.DataFrame? || w.ErrorText?
  }

  lemma {:induction false} NeutralRead(r: Reader, frames: seq<Wire>)
    requires forall w :: w in frames ==> Neutral(w)
    ensures ReadAll(r, frames) == r
  {
    if frames != [] {
      NeutralRead(r, frames[..|frames| - 1]);
      assert Neutral(frames[|frames| - 1]);
    }
  }

  lemma EncodeAgrees(f: Flags, e: Event, r: Reader)
    requires Agrees(f, r)
    ensures Agrees(Encode(f, e).flags, ReadAll(r, Encode(f, e).frames))
  {
    if e.ToolArgs? || e.ToolUse? {
      CallAgrees(f, e, r);
    } else if e.Text? {
      TextAgrees(f, e.delta, r);
    } else if e.Thinking? {
      ReasoningAgrees(f, e.delta, r);
    } else if e.Cancelled? {
      CancelAgrees(f, r);
    } else {
      NeutralRead(r, Encode(f, e).frames);
    }
  }

  lemma {:induction false} AllAgree(events: seq<Event>)
    ensures Agrees(EncodeAll(events).flags, ReadAll(IDLE, EncodeAll(events).frames))
  {
    if events != [] {
      var before := EncodeAll(events[..|events| - 1]);
      AllAgree(events[..|events| - 1]);
      EncodeAgrees(before.flags, events[|events| - 1], ReadAll(IDLE, before.frames));
      ReadConcat(IDLE, before.frames, Encode(before.flags, events[|events| - 1]).frames);
    }
  }

  lemma ClosingCloses(f: Flags, r: Reader, reason: string)
    requires Agrees(f, r)
    ensures var end := ReadAll(r, Closing(f, reason)); end.ok && !end.reasoning && !end.text
  {
    ReadShort(r, Closing(f, reason));
  }

  // ---- Calls after their end ---------------------------------------------------------------

  predicate EndsCall(e: Event, id: string) { e.ToolUse? && e.id == id }

  predicate EndedBefore(events: seq<Event>, n: nat, id: string)
    requires n <= |events|
  {
    exists j :: 0 <= j < n && EndsCall(events[j], id)
  }

  /** The event would write into a call that already ended. */
  predicate Late(events: seq<Event>, n: nat)
    requires n < |events|
  {
    match events[n]
    case ToolUse(id, _, _) => id != "" && EndedBefore(events, n, id)
    case ToolArgs(id, _, delta) => id != "" && delta != "" && EndedBefore(events, n, id)
    case _ => false
  }

  lemma CallEnds(f: Flags, e: Event, r: Reader)
    requires "" !in r.ended && (e.ToolArgs? || e.ToolUse?)
    ensures CallsAdvance(r, e, ReadAll(r, Encode(f, e).frames))
  {
    var call := OpenCall(f, e.id, e.name);
    NoCalls(r, call.frames);
    ReadConcat(r, call.frames, CallRest(f, e));
    RestEnds(f, e, ReadAll(r, call.frames));
  }

  /** What event e does to a reader's calls. */
  predicate CallsAdvance(r: Reader, e: Event, r': Reader) {
    && r'.ended == (if e.ToolUse? && e.id != "" then r.ended + {e.id} else r.ended)
    && (r'.callsOk <==>
        r.callsOk && !(e.ToolUse? && e.id in r.ended) && !(e.ToolArgs? && e.delta != "" && e.id in r.ended))
  }

  predicate AboutCalls(w: Wire) { w.CallDelta? || w.CallEnd? }

  lemma {:induction false} NoCalls(r: Reader, frames: seq<Wire>)
    requires forall w :: w in frames ==> !AboutCalls(w)
    ensures ReadAll(r, frames).ended == r.ended && ReadAll(r, frames).callsOk == r.callsOk
  {
    if frames != [] {
      NoCalls(r, frames[..|frames| - 1]);
      assert !AboutCalls(frames[|frames| - 1]);
    }
  }

  lemma EncodeCalls(f: Flags, e: Event, r: Reader)
    requires "" !in r.ended
    ensures CallsAdvance(r, e, ReadAll(r, Encode(f, e).frames))
  {
    if e.ToolArgs? || e.ToolUse? {
      CallEnds(f, e, r);
    } else {
      NoCalls(r, Encode(f, e).frames);
    }
  }

  /** What a reader knows of the calls after n events. */
  ghost predicate KnowsCalls(events: seq<Event>, n: nat, r: Reader) {
    && n <= |events| && "" !in r.ended
    && (forall id :: id in r.ended <==> id != "" && EndedBefore(events, n, id))
    && (r.callsOk <==> forall k :: 0 <= k < n ==> !Late(events, k))
  }

  lemma EndedNext(events: seq<Event>, n: nat, id: string)
    requires n < |events|
    ensures EndedBefore(events, n + 1, id) <==> EndedBefore(events, n, id) || EndsCall(events[n], id)
  {
  }

  lemma KnowsNext(events: seq<Event>, n: nat, r: Reader, r': Reader)
    requires n < |events| && KnowsCalls(events, n, r) && CallsAdvance(r, events[n], r')
    ensures KnowsCalls(events, n + 1, r')
  {
    forall id ensures id in r'.ended <==> id != "" && EndedBefore(events, n + 1, id) {
      EndedNext(events, n, id);
    }
    assert (forall k :: 0 <= k < n + 1 ==> !Late(events, k)) <==>
           (forall k :: 0 <= k < n ==> !Late(events, k)) && !Late(events, n);
  }

  lemma {:induction false} LateCalls(events: seq<Event>, n: nat)
    requires n <= |events|
    ensures KnowsCalls(events, n, ReadAll(IDLE, EncodeAll(events[..n]).frames))
  {
    if n == 0 {
      assert events[..0] == [];
    } else {
      LateCalls(events, n - 1);
      var before, e := EncodeAll(events[..n - 1]), events[n - 1];
      var r := ReadAll(IDLE, before.frames);
      EncodeNext(events, n - 1);
      EncodeCalls(before.flags, e, r);
      ReadConcat(IDLE, before.frames, Encode(before.flags, e).frames);
      KnowsNext(events, n - 1, r, ReadAll(r, Encode(before.flags, e).frames));
    }
  }

  lemma EncodeNext(events: seq<Event>, n: nat)
    requires n < |events|
    ensures EncodeAll(events[..n + 1]).frames ==
              EncodeAll(events[..n]).frames + Encode(EncodeAll(events[..n]).flags, events[n]).frames
  {
    assert events[..n + 1][..n] == events[..n];
  }

  /** Main result: fragments and ends of a call stay inside the call exactly when no event
      comes late. */
  lemma CallsBracketed(events: seq<Event>)
    ensures ReadAll(IDLE, EncodeAll(events).frames).callsOk <==> forall k :: 0 <= k < |events| ==> !Late(events, k)
  {
    LateCalls(events, |events|);
    assert events[..|events|] == events;
  }

  /** The smallest stream that breaks it: a fragment after the call was finished. */
  lemma LateFragment()
    ensures !ReadAll(IDLE, EncodeAll([Event.ToolUse("x", "f", None), ToolArgs("x", "f", "1")]).frames).callsOk
  {
    var events := [Event.ToolUse("x", "f", None), ToolArgs("x", "f", "1")];
    assert EndsCall(events[0], "x");
    assert Late(events, 1);
    CallsBracketed(events);
  }

  // ---- Calls left open -----------------------------------------------------------------------

  predicate NamesCall(e: Event, id: string) { (e.ToolArgs? || e.ToolUse?) && e.id == id }

  predicate NamedBefore(events: seq<Event>, n: nat, id: string)
    requires n <= |events|
  {
    exists j :: 0 <= j < n && NamesCall(events[j], id)
  }

  lemma NamedNext(events: seq<Event>, n: nat, id: string)
    requires n < |events|
    ensures NamedBefore(events, n + 1, id) <==> NamedBefore(events, n, id) || NamesCall(events[n], id)
  {
  }

  lemma StartedByEvent(f: Flags, e: Event, id: string)
    ensures id in Encode(f, e).flags.toolStarted <==> id in f.toolStarted || (id != "" && NamesCall(e, id))
    ensures Encode(f, e).flags.trackers <==> f.trackers || ((e.ToolArgs? || e.ToolUse?) && e.id != "")
  {
  }

  lemma {:induction false} StartedCalls(events: seq<Event>, n: nat, id: string)
    requires n <= |events|
    ensures id in EncodeAll(events[..n]).flags.toolStarted <==> id != "" && NamedBefore(events, n, id)
  {
    if n > 0 {
      StartedCalls(events, n - 1, id);
      NamedNext(events, n - 1, id);
      assert events[..n][..n - 1] == events[..n - 1];
      StartedByEvent(EncodeAll(events[..n - 1]).flags, events[n - 1], id);
    }
  }

  /** Every call whose arguments were streamed is finished at some point. */
  ghost predicate CallsFinished(events: seq<Event>) {
    forall k :: 0 <= k < |events| ==> FinishedCall(events, k)
  }

  ghost predicate FinishedCall(events: seq<Event>, k: nat)
    requires k < |events|
  {
    events[k].ToolArgs? && events[k].id != "" ==> EndedBefore(events, |events|, events[k].id)
  }

  /** What a reader knows of the calls of the whole stream. */
  lemma CallsKnown(events: seq<Event>) returns (r: Reader)
    ensures r == ReadAll(IDLE, EncodeAll(events).frames)
    ensures forall id :: id in r.started <==> id != "" && NamedBefore(events, |events|, id)
    ensures forall id :: id in r.ended <==> id != "" && EndedBefore(events, |events|, id)
  {
    r := ReadAll(IDLE, EncodeAll(events).frames);
    AllAgree(events);
    assert events[..|events|] == events;
    LateCalls(events, |events|);
    forall id ensures id in EncodeAll(events).flags.toolStarted <==> id != "" && NamedBefore(events, |events|, id) {
      StartedCalls(events, |events|, id);
    }
  }

  lemma NamedIsEnded(events: seq<Event>, id: string)
    requires CallsFinished(events) && id != ""
    ensures NamedBefore(events, |events|, id) <==> EndedBefore(events, |events|, id)
  {
    if NamedBefore(events, |events|, id) {
      var j :| 0 <= j < |events| && NamesCall(events[j], id);
      assert FinishedCall(events, j);
      assert events[j].ToolUse? ==> EndsCall(events[j], id);
    }
    if EndedBefore(events, |events|, id) {
      var j :| 0 <= j < |events| && EndsCall(events[j], id);
      assert NamesCall(events[j], id);
    }
  }

  /** A call is left open exactly when its arguments were streamed and it was never
      finished. */
  lemma OpenCalls(events: seq<Event>)
    ensures var r := ReadAll(IDLE, EncodeAll(events).frames); r.started == r.ended <==> CallsFinished(events)
  {
    var r := CallsKnown(events);
    if CallsFinished(events) {
      forall id ensures id in r.started <==> id in r.ended {
        if id != "" {
          NamedIsEnded(events, id);
        }
      }
      assert forall id :: id in r.started <==> id in r.ended;
    }
    if r.started == r.ended {
      forall k | 0 <= k < |events| ensures FinishedCall(events, k) {
        if events[k].ToolArgs? && events[k].id != "" {
          assert NamesCall(events[k], events[k].id);
          assert events[k].id in r.started;
        }
      }
    }
  }

  predicate OfCall(w: Wire) { w.CallStart? || w.CallDelta? || w.CallEnd? }

  lemma {:induction false} CallsUntouched(r: Reader, frames: seq<Wire>)
    requires forall w :: w in frames ==> !OfCall(w)
    ensures ReadAll(r, frames).started == r.started && ReadAll(r, frames).ended == r.ended
  {
    if frames != [] {
      CallsUntouched(r, frames[..|frames| - 1]);
      assert !OfCall(frames[|frames| - 1]);
    }
  }

  /** Main result: whatever the events, and wherever a write fails, what reached the client
      is a prefix of a stream that is well bracketed. Once finished its text and reasoning
      are closed, and its calls exactly when each streamed one was finished. */
  lemma ClientSeesBrackets(events: seq<Event>, reason: string, written: seq<Wire>)
    requires written <= EncodeAll(events).frames + Closing(EncodeAll(events).flags, reason)
    ensures ReadAll(IDLE, written).ok
    ensures var whole := ReadAll(IDLE, EncodeAll(events).frames + Closing(EncodeAll(events).flags, reason));
            whole.ok && !whole.reasoning && !whole.text && (whole.started == whole.ended <==> CallsFinished(events))
  {
    var e := EncodeAll(events);
    var whole := e.frames + Closing(e.flags, reason);
    AllAgree(events);
    ReadConcat(IDLE, e.frames, Closing(e.flags, reason));
    ClosingCloses(e.flags, ReadAll(IDLE, e.frames), reason);
    CallsUntouched(ReadAll(IDLE, e.frames), Closing(e.flags, reason));
    OpenCalls(events);
    assert whole == written + whole[|written|..];
    ReadConcat(IDLE, written, whole[|written|..]);
    OkFromStart(ReadAll(IDLE, written), whole[|written|..]);
  }

  /** The smallest run that leaves a call open: it is cut off while the arguments stream. */
  lemma CutOffCall(reason: string)
    ensures var e := EncodeAll([ToolArgs("x", "f", "1")]);
            var whole := ReadAll(IDLE, e.frames + Closing(e.flags, reason));
            whole.ok && whole.started != whole.ended
  {
    var events := [ToolArgs("x", "f", "1")];
    var e := EncodeAll(events);
    assert !FinishedCall(events, 0);
    ClientSeesBrackets(events, reason, e.frames + Closing(e.flags, reason));
  }

  // ---- Driving the emitter --------------------------------------------------------------------

  /** No event makes the source write to a map that was not made. */
  ghost predicate NoPanics(events: seq<Event>) {
    forall k :: 0 <= k < |events| ==> !Panics(EncodeAll(events[..k]).flags, events[k])
  }

  /** Some call with an id comes before event n. */
  predicate MapsMade(events: seq<Event>, n: nat)
    requires n <= |events|
  {
    exists j :: 0 <= j < n && (events[j].ToolArgs? || events[j].ToolUse?) && events[j].id != ""
  }

  lemma {:induction false} TrackersMade(events: seq<Event>, n: nat)
    requires n <= |events|
    ensures EncodeAll(events[..n]).flags.trackers <==> MapsMade(events, n)
  {
    if n > 0 {
      TrackersMade(events, n - 1);
      assert events[..n][..n - 1] == events[..n - 1];
      StartedByEvent(EncodeAll(events[..n - 1]).flags, events[n - 1], "");
    }
  }

  /** The emitter panics exactly on argument text for an empty id before any call with an id. */
  lemma PanicsExactly(events: seq<Event>)
    ensures NoPanics(events) <==>
            forall k :: 0 <= k < |events| ==>
              (events[k].ToolArgs? && events[k].id == "" && events[k].delta != "" ==> MapsMade(events, k))
  {
    forall k | 0 <= k < |events|
      ensures Panics(EncodeAll(events[..k]).flags, events[k]) <==>
              events[k].ToolArgs? && events[k].id == "" && events[k].delta != "" && !MapsMade(events, k)
    {
      TrackersMade(events, k);
    }
  }

  // ---- Failure is never reported as success --------------------------------------------------

  lemma {:induction false} FailureLatched(events: seq<Event>, k: nat)
    requires k < |events| && (events[k].Error? || events[k].Cancelled?)
    ensures EncodeAll(events).flags.finishReason in {"error", "length", "other"}
  {
    var n := |events| - 1;
    if k < n && !events[n].Error? && !events[n].Cancelled? {
      FailureLatched(events[..n], k);
    }
  }

  /** A run that failed or was cancelled never finishes as "stop" on its own. */
  lemma FailureNotStop(events: seq<Event>, k: nat)
    requires k < |events| && (events[k].Error? || events[k].Cancelled?)
    ensures FinishReason(EncodeAll(events).flags, "") != "stop"
  {
    FailureLatched(events, k);
  }
}
