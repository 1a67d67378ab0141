/** What a client reads back from the encoded stream (internal/chatapi/emitter.go:138-418). */
module EmitterPayloads {
  import Provider
  import opened Emitter
  import opened EmitterProperties
  import opened Selections

  // ---- Reading back ----------------------------------------------------------------------

  /** The event a frame tells of. Frames that open or close something, and the frames of calls,
      tell of none. */
  function EventIn(w: Wire): seq<Event> {
    match w
    case RunStatus(status) =>
      if status == "running" then [Running] else if status == "done" then [Done]
      else if status == "cancelled" then [Cancelled] else []
    case ReasoningDelta(text) => [Thinking(text)]
    case TextDelta(text) => [Text(text)]
    case StepBegin => [StepStart]
    case StepEnd(reason, i, o, continued) => [StepFinish(reason, i, o, continued)]
    case CallResult(id, result, isError) => [ToolResult(id, result, isError)]
    case DataFrame(name) => [Data(name)]
    case ErrorText(text) => [Error(text)]
    case _ => []
  }

  function ReadBack(frames: seq<Wire>): seq<Event> {
    Gather(frames, EventIn)
  }

  /** What can be read back of an event: all of it, but for calls, whose arguments are read
      otherwise, and usage, whose counts the finish frame tells. */
  function Readable(e: Event): seq<Event> {
    match e
    case ToolArgs(_, _, _) => []
    case ToolUse(_, _, _) => []
    case Usage(_, _) => [Data("usage")]
    case _ => [e]
  }

  function ReadableAll(events: seq<Event>): seq<Event> {
    Gather(events, Readable)
  }

  lemma ReadJoin(a: seq<Wire>, b: seq<Wire>)
    ensures ReadBack(a + b) == ReadBack(a) + ReadBack(b)
  {
    GatherJoin(a, b, EventIn);
  }

  lemma ReadOne(w: Wire)
    ensures ReadBack([w]) == EventIn(w) && ReadBack([]) == []
  {
    GatherOne(w, EventIn);
  }

  lemma ReadTwo(a: Wire, b: Wire)
    ensures ReadBack([a, b]) == EventIn(a) + EventIn(b)
  {
    ReadOne(a);
    ReadOne(b);
    ReadJoin([a], [b]);
    assert [a] + [b] == [a, b];
  }

  lemma ReadThinkingEnd(f: Flags)
    ensures ReadBack(CloseThinking(f).frames) == []
  {
    ReadOne(ReasoningEnd);
  }

  lemma ReadCallOpen(f: Flags, id: string, name: string)
    ensures ReadBack(OpenCall(f, id, name).frames) == []
  {
    ReadOne(CallStart(id, name));
  }

  lemma ReadDelta(f: Flags, e: Event)
    requires e.Thinking? || e.Text?
    ensures ReadBack(Encode(f, e).frames) == [e]
  {
    match e
    case Thinking(delta) =>
      ReadOne(ReasoningDelta(delta));
      ReadOne(ReasoningStart);
      ReadJoin(if f.thinkOpen then [] else [ReasoningStart], [ReasoningDelta(delta)]);
    case Text(delta) =>
      ReadThinkingEnd(f);
      ReadOne(TextDelta(delta));
      ReadOne(TextStart);
      ReadJoin(CloseThinking(f).frames, if f.textStarted then [] else [TextStart]);
      ReadJoin(CloseThinking(f).frames + (if f.textStarted then [] else [TextStart]), [TextDelta(delta)]);
  }

  lemma ReadFragment(f: Flags, id: string, name: string, delta: string)
    ensures ReadBack(Encode(f, ToolArgs(id, name, delta)).frames) == []
  {
    ReadCallOpen(f, id, name);
    ReadOne(CallDelta(id, delta));
    ReadJoin(OpenCall(f, id, name).frames, [CallDelta(id, delta)]);
  }

  lemma ReadFinished(f: Flags, id: string, name: string, input: Provider.Option<string>)
    ensures ReadBack(Encode(f, ToolUse(id, name, input)).frames) == []
  {
    var start := OpenCall(f, id, name).frames;
    var args := if id !in f.argsStreamed && input.Some? then [CallDelta(id, input.value)] else [];
    ReadCallOpen(f, id, name);
    ReadOne(if args == [] then CallEnd(id) else args[0]);
    ReadOne(CallEnd(id));
    ReadJoin(start, args);
    ReadJoin(start + args, [CallEnd(id)]);
  }

  lemma ReadCancelled(f: Flags)
    ensures ReadBack(Encode(f, Cancelled).frames) == [Cancelled]
  {
    ReadThinkingEnd(f);
    var ends := if f.textStarted then [TextEnd] else [];
    ReadOne(TextEnd);
    ReadOne(RunStatus("cancelled"));
    ReadJoin(CloseThinking(f).frames, ends);
    ReadJoin(CloseThinking(f).frames + ends, [RunStatus("cancelled")]);
  }

  /** What is read back of one event. */
  lemma ReadEvent(f: Flags, e: Event)
    ensures ReadBack(Encode(f, e).frames) == Readable(e)
  {
    match e
    case Thinking(_) => ReadDelta(f, e);
    case Text(_) => ReadDelta(f, e);
    case ToolArgs(id, name, delta) => ReadFragment(f, id, name, delta);
    case ToolUse(id, name, input) => ReadFinished(f, id, name, input);
    case Cancelled => ReadCancelled(f);
    case Error(text) => ReadTwo(ErrorText(text), RunStatus("failed"));
    case _ => ReadOne(Encode(f, e).frames[0]);
  }

  lemma ReadClosing(f: Flags, reason: string)
    ensures ReadBack(Closing(f, reason)) == []
  {
    var ends := if f.textStarted then [TextEnd] else [];
    var last := [Finish(FinishReason(f, reason), f.usageIn, f.usageOut), EndOfStream];
    ReadThinkingEnd(f);
    ReadOne(TextEnd);
    ReadTwo(last[0], last[1]);
    ReadJoin(CloseThinking(f).frames, ends);
    ReadJoin(CloseThinking(f).frames + ends, last);
  }

  lemma {:induction false} AllReadBack(events: seq<Event>)
    ensures ReadBack(EncodeAll(events).frames) == ReadableAll(events)
  {
    if events != [] {
      var front := events[..|events| - 1];
      AllReadBack(front);
      ReadEvent(EncodeAll(front).flags, events[|events| - 1]);
      ReadJoin(EncodeAll(front).frames, Encode(EncodeAll(front).flags, events[|events| - 1]).frames);
    }
  }

  /** Main result: what a client reads back of a whole stream are the events it was encoded
      from, payloads and all, in order; of a stream cut anywhere, their beginning. */
  lemma EventsReadBack(events: seq<Event>, reason: string, written: seq<Wire>)
    requires written <= EncodeAll(events).frames + Closing(EncodeAll(events).flags, reason)
    ensures ReadBack(EncodeAll(events).frames + Closing(EncodeAll(events).flags, reason)) == ReadableAll(events)
    ensures ReadBack(written) <= ReadableAll(events)
  {
    var e := EncodeAll(events);
    var whole := e.frames + Closing(e.flags, reason);
    AllReadBack(events);
    ReadClosing(e.flags, reason);
    ReadJoin(e.frames, Closing(e.flags, reason));
    assert whole == written + whole[|written|..];
    ReadJoin(written, whole[|written|..]);
  }

  // ---- Text ----------------------------------------------------------------------------------

  function TextIn(e: Event): string { if e.Text? then e.delta else "" }

  function ThinkingIn(e: Event): string { if e.Thinking? then e.delta else "" }

  function TextOn(w: Wire): string { if w.TextDelta? then w.text else "" }

  function ReasoningOn(w: Wire): string { if w.ReasoningDelta? then w.text else "" }

  /** The text shown by frames, and the reasoning. */
  function TextShown(frames: seq<Wire>): string { Gather(frames, TextOn) }

  function ReasoningShown(frames: seq<Wire>): string { Gather(frames, ReasoningOn) }

  /** The text of events, and the thinking. */
  function TextOf(events: seq<Event>): string { Gather(events, TextIn) }

  function ThinkingOf(events: seq<Event>): string { Gather(events, ThinkingIn) }

  lemma FrameTells(w: Wire)
    ensures TextOn(w) == Gather(EventIn(w), TextIn) && ReasoningOn(w) == Gather(EventIn(w), ThinkingIn)
  {
    if EventIn(w) != [] {
      var e := EventIn(w)[0];
      GatherOne(e, TextIn);
      GatherOne(e, ThinkingIn);
      assert EventIn(w) == [e];
    }
  }

  lemma ShownIsRead(frames: seq<Wire>)
    ensures TextShown(frames) == TextOf(ReadBack(frames)) && ReasoningShown(frames) == ThinkingOf(ReadBack(frames))
  {
    forall w: Wire
      ensures TextOn(w) == Gather(EventIn(w), TextIn) && ReasoningOn(w) == Gather(EventIn(w), ThinkingIn) {
      FrameTells(w);
    }
    GatherTwice(frames, EventIn, TextIn, TextOn);
    GatherTwice(frames, EventIn, ThinkingIn, ReasoningOn);
  }

  lemma ReadableTells(e: Event)
    ensures TextIn(e) == Gather(Readable(e), TextIn) && ThinkingIn(e) == Gather(Readable(e), ThinkingIn)
  {
    if Readable(e) != [] {
      var r := Readable(e)[0];
      GatherOne(r, TextIn);
      GatherOne(r, ThinkingIn);
      assert Readable(e) == [r];
    }
  }

  lemma ReadableText(events: seq<Event>)
    ensures TextOf(ReadableAll(events)) == TextOf(events) && ThinkingOf(ReadableAll(events)) == ThinkingOf(events)
  {
    forall e: Event
      ensures TextIn(e) == Gather(Readable(e), TextIn) && ThinkingIn(e) == Gather(Readable(e), ThinkingIn) {
      ReadableTells(e);
    }
    GatherTwice(events, Readable, TextIn, TextIn);
    GatherTwice(events, Readable, ThinkingIn, ThinkingIn);
  }

  /** Main result: the text a whole stream shows is the text of its events, and so is the
      reasoning. */
  lemma TextIsWhole(events: seq<Event>, reason: string)
    ensures var whole := EncodeAll(events).frames + Closing(EncodeAll(events).flags, reason);
            TextShown(whole) == TextOf(events) && ReasoningShown(whole) == ThinkingOf(events)
  {
    var whole := EncodeAll(events).frames + Closing(EncodeAll(events).flags, reason);
    EventsReadBack(events, reason, whole);
    ShownIsRead(whole);
    ReadableText(events);
  }

  // ---- The finish frame --------------------------------------------------------------------------

  /** The counts of the last usage event. */
  function LastUsage(events: seq<Event>): (nat, nat) {
    if events == [] then (0, 0)
    else if events[|events| - 1].Usage? then (events[|events| - 1].inTokens, events[|events| - 1].outTokens)
    else LastUsage(events[..|events| - 1])
  }

  /** A run that failed in a step that was cut at its length, and did not go on. */
  predicate CutShort(events: seq<Event>) {
    events != [] &&
    if events[|events| - 1].StepFinish? then events[|events| - 1].reason == "length" && !events[|events| - 1].continued
    else CutShort(events[..|events| - 1])
  }

  /** What the events tell of how the run ended: the last failure or cancellation decides. */
  function EndedAs(events: seq<Event>): string {
    if events == [] then "stop"
    else
      var front, e := events[..|events| - 1], events[|events| - 1];
      if e.Cancelled? then "other" else if e.Error? then (if CutShort(front) then "length" else "error")
        else EndedAs(front)
  }

  /** What one event does to the flags that the finish frame is made of. */
  lemma FlagsAfter(f: Flags, e: Event)
    ensures var g := Encode(f, e).flags;
            (g.usageIn, g.usageOut) == (if e.Usage? then (e.inTokens, e.outTokens) else (f.usageIn, f.usageOut)) &&
            (if e.StepFinish? then g.lastStepReason == e.reason && g.lastStepContinued == e.continued
             else g.lastStepReason == f.lastStepReason && g.lastStepContinued == f.lastStepContinued) &&
            g.finishReason ==
            if e.Cancelled? then "other"
            else if e.Error? then (if f.lastStepReason == "length" && !f.lastStepContinued then "length" else "error")
            else f.finishReason
  {
  }

  lemma {:induction false} FlagsTell(events: seq<Event>)
    ensures var f := EncodeAll(events).flags;
            (f.usageIn, f.usageOut) == LastUsage(events) &&
            (f.lastStepReason == "length" && !f.lastStepContinued <==> CutShort(events)) &&
            EndedAs(events) == if f.finishReason == "" then "stop" else f.finishReason
  {
    assert |""| == 0 && |"length"| == 6 && |"other"| == 5 && |"error"| == 5;
    if events != [] {
      FlagsTell(events[..|events| - 1]);
      FlagsAfter(EncodeAll(events[..|events| - 1]).flags, events[|events| - 1]);
    }
  }

  /** Main result: the stream ends with one finish frame, which carries the counts of the last
      usage event and, unless a reason is given, how the events say the run ended. */
  lemma FinishFrame(events: seq<Event>, reason: string)
    ensures var closing := Closing(EncodeAll(events).flags, reason);
            |closing| >= 2 && closing[|closing| - 1] == EndOfStream && closing[|closing| - 2].Finish? &&
            var finish := closing[|closing| - 2];
            (finish.inTokens, finish.outTokens) == LastUsage(events) &&
            finish.reason == (if reason != "" then reason else EndedAs(events))
  {
    FlagsTell(events);
  }

  // ---- Errors and calls ------------------------------------------------------------------------

  /** Every error text is followed at once by the failed status, and that status by itself
      means an error. */
  ghost predicate ErrorsFail(frames: seq<Wire>) {
    forall k: nat :: k < |frames| ==> FailsAt(frames, k)
  }

  predicate FailsAt(frames: seq<Wire>, k: nat)
    requires k < |frames|
  {
    (frames[k].ErrorText? ==> k + 1 < |frames| && frames[k + 1] == RunStatus("failed")) &&
    (frames[k] == RunStatus("failed") ==> k > 0 && frames[k - 1].ErrorText?)
  }

  /** Only an error writes these. */
  lemma OthersDoNotFail(f: Flags, e: Event, k: nat)
    requires !e.Error? && k < |Encode(f, e).frames|
    ensures !Encode(f, e).frames[k].ErrorText? && Encode(f, e).frames[k] != RunStatus("failed")
  {
    assert "failed"[0] != "running"[0] && "failed"[0] != "done"[0] && "failed"[0] != "cancelled"[0];
  }

  lemma EventFails(f: Flags, e: Event)
    ensures ErrorsFail(Encode(f, e).frames)
  {
    if !e.Error? {
      forall k: nat | k < |Encode(f, e).frames|
        ensures !Encode(f, e).frames[k].ErrorText? && Encode(f, e).frames[k] != RunStatus("failed") {
        OthersDoNotFail(f, e, k);
      }
    }
  }

  lemma FailJoin(a: seq<Wire>, b: seq<Wire>)
    requires ErrorsFail(a) && ErrorsFail(b)
    ensures ErrorsFail(a + b)
  {
    forall k: nat | k < |a + b| ensures FailsAt(a + b, k) {
      if k < |a| {
        assert FailsAt(a, k);
      } else {
        assert FailsAt(b, k - |a|);
      }
    }
  }

  lemma {:induction false} ErrorsAreFailures(events: seq<Event>)
    ensures ErrorsFail(EncodeAll(events).frames)
  {
    if events != [] {
      var front := events[..|events| - 1];
      ErrorsAreFailures(front);
      EventFails(EncodeAll(front).flags, events[|events| - 1]);
      FailJoin(EncodeAll(front).frames, Encode(EncodeAll(front).flags, events[|events| - 1]).frames);
    }
  }

  predicate CallsWith(e: Event, id: string) { (e.ToolArgs? || e.ToolUse?) && e.id == id }

  /** The name comes from the first event that mentions the call. */
  ghost predicate NamedBy(events: seq<Event>, j: nat, id: string, name: string)
    requires j < |events|
  {
    CallsWith(events[j], id) && events[j].name == name && forall i :: 0 <= i < j ==> !CallsWith(events[i], id)
  }

  lemma EventOpens(f: Flags, e: Event, k: nat)
    requires k < |Encode(f, e).frames| && Encode(f, e).frames[k].CallStart?
    ensures var start := Encode(f, e).frames[k];
            CallsWith(e, start.id) && e.name == start.name && start.id !in f.toolStarted
  {
  }

  lemma StartsGrow(f: Flags, e: Event, id: string)
    requires id in f.toolStarted || (id != "" && CallsWith(e, id))
    ensures id in Encode(f, e).flags.toolStarted
  {
    StartedByEvent(f, e, id);
  }

  lemma {:induction false} MentionedIsStarted(events: seq<Event>, i: nat, id: string)
    requires id != "" && i < |events| && CallsWith(events[i], id)
    ensures id in EncodeAll(events).flags.toolStarted
  {
    var n := |events| - 1;
    if i < n {
      MentionedIsStarted(events[..n], i, id);
    }
    StartsGrow(EncodeAll(events[..n]).flags, events[n], id);
  }

  /** Every call is announced under the id and the name of the first event that mentions it. */
  lemma {:induction false} CallsAreNamed(events: seq<Event>, k: nat) returns (j: nat)
    requires k < |EncodeAll(events).frames| && EncodeAll(events).frames[k].CallStart?
    ensures j < |events| && NamedBy(events, j, EncodeAll(events).frames[k].id, EncodeAll(events).frames[k].name)
  {
    var n := |events| - 1;
    var before := EncodeAll(events[..n]);
    if k < |before.frames| {
      j := CallsAreNamed(events[..n], k);
      assert forall i :: 0 <= i < n ==> events[..n][i] == events[i];
    } else {
      j := n;
      EventOpens(before.flags, events[n], k - |before.frames|);
      var start := Encode(before.flags, events[n]).frames[k - |before.frames|];
      forall i | 0 <= i < n ensures !CallsWith(events[i], start.id) {
        if CallsWith(events[i], start.id) {
          assert events[..n][i] == events[i];
          StartHasId(before.flags, events[n], k - |before.frames|);
          MentionedIsStarted(events[..n], i, start.id);
        }
      }
    }
  }

  lemma StartHasId(f: Flags, e: Event, k: nat)
    requires k < |Encode(f, e).frames| && Encode(f, e).frames[k].CallStart?
    ensures Encode(f, e).frames[k].id != ""
  {
  }

  // ---- Driving the emitter --------------------------------------------------------------------

  /** The write that fails lies in the frames of the first n events. */
  predicate Broken(events: seq<Event>, n: nat, failAt: Provider.Option<nat>)
    requires n <= |events|
  {
    failAt.Some? && failAt.value < |EncodeAll(events[..n]).frames|
  }

  /** The events that take effect: those before the cancellation, up to and with the one
      whose encoding contains the write that fails. */
  ghost predicate Took(events: seq<Event>, failAt: Provider.Option<nat>, doneAt: nat, n: nat) {
    && n <= |events| && n <= doneAt && (forall j :: 0 <= j < n ==> !Broken(events, j, failAt))
    && (n < |events| && n < doneAt ==> Broken(events, n, failAt))
  }

  /** The same after k events were told. */
  ghost predicate TookSoFar(events: seq<Event>, failAt: Provider.Option<nat>, doneAt: nat, k: nat, n: nat) {
    && n <= k <= |events| && n <= doneAt && (forall j :: 0 <= j < n ==> !Broken(events, j, failAt))
    && (n < k && n < doneAt ==> Broken(events, n, failAt))
  }

  lemma TookNext(events: seq<Event>, failAt: Provider.Option<nat>, doneAt: nat, k: nat, n: nat)
    requires TookSoFar(events, failAt, doneAt, k, n) && k < |events|
    ensures var stopped := k >= doneAt || Broken(events, n, failAt);
            TookSoFar(events, failAt, doneAt, k + 1, if stopped then n else k + 1) && (!stopped ==> n == k)
  {
  }

  /** Main result for the emitter itself: told any events, with the run cancelled at any point
      and any write failing, it takes the events before either and leaves the client with a
      well-bracketed stream, cut at the write that failed. */
  method Drive(events: seq<Event>, failAt: Provider.Option<nat>, doneAt: nat, reason: string)
    returns (e: SseEmitter, n: nat)
    requires forall k :: 0 <= k < |events| && k < doneAt && !Broken(events, k, failAt) ==>
               !Panics(EncodeAll(events[..k]).flags, events[k])
    ensures fresh(e) && e.Valid() && Took(events, failAt, doneAt, n) && ReadAll(IDLE, e.written).ok
    ensures e.intended == EncodeAll(events[..n]).frames + Closing(EncodeAll(events[..n]).flags, reason)
    ensures ReadBack(e.intended) == ReadableAll(events[..n]) && ReadBack(e.written) <= ReadableAll(events[..n])
    ensures e.written == if failAt.Some? && failAt.value < |e.intended| then e.intended[..failAt.value] else e.intended
  {
    e := new SseEmitter(failAt);
    n := 0;
    for k := 0 to |events|
      invariant TookSoFar(events, failAt, doneAt, k, n) && e.Valid() && fresh(e) && e.failAt == failAt
      invariant e.Value() == EncodeAll(events[..n]).flags && e.intended == EncodeAll(events[..n]).frames
    {
      var stopped := k >= doneAt || e.writeErr;
      TookNext(events, failAt, doneAt, k, n);
      if !stopped {
        assert events[..k + 1][..k] == events[..k];
      }
      var failed := e.Emit(k >= doneAt, events[k]);
      if !stopped {
        n := k + 1;
      }
    }
    e.FinishWithReason(reason);
    ClientSeesBrackets(events[..n], reason, e.written);
    EventsReadBack(events[..n], reason, e.written);
  }
}
