/** The text an attached client is shown (internal/chatapi/attach.go:50-297). */
module AttachTexts {
  import opened Provider
  import opened Selections
  import opened Emitter
  import opened EmitterProperties
  import opened EmitterPayloads
  import opened Attach
  import opened AttachProperties

  // ---- From what is told to the emitter's input --------------------------------------------

  /** A frame or a lifecycle event that is shown as something. */
  predicate Rendered(t: Told) {
    (t.Content? && t.entry.event.Some?) || (t.Life? && t.note.event.Some?)
  }

  predicate RenderedAs(t: Told, e: Event) {
    (t.Content? && t.entry.event == Some(e)) || (t.Life? && t.note.event == Some(e))
  }

  ghost function RenderedAt(told: seq<Told>): nat -> bool {
    (k: nat) => k < |told| && Rendered(told[k])
  }

  ghost function RendersAs(told: seq<Told>, events: seq<Event>): (nat, nat) -> bool {
    (j: nat, k: nat) => j < |events| && k < |told| && RenderedAs(told[k], events[j])
  }

  /** The emitter is told what renders to something, in order. */
  lemma {:induction false} EventsAreTold(told: seq<Told>) returns (at: seq<nat>)
    ensures Positions(at, |told|, RenderedAt(told)) && Matched(at, |EventsOf(told)|, RendersAs(told, EventsOf(told)))
  {
    if told == [] {
      at := [];
    } else {
      var front, n := told[..|told| - 1], |told| - 1;
      at := EventsAreTold(front);
      var before, after := EventsOf(front), EventsOf(told);
      at := NextSelected(at, n, RenderedAt(front), RenderedAt(told), |before|, RendersAs(front, before),
                         RendersAs(told, after));
    }
  }

  // ---- The run's own lifecycle -------------------------------------------------------------------

  ghost function OwnAt(notes: seq<Note>, run: string): nat -> bool {
    (k: nat) => k < |notes| && notes[k].run == run
  }

  ghost function SameNote(notes: seq<Note>, own: seq<Note>): (nat, nat) -> bool {
    (j: nat, k: nat) => j < |own| && k < |notes| && own[j] == notes[k]
  }

  /** Of the lifecycle events still buffered at the end exactly the run's own are shown, in
      order. */
  lemma {:induction false} OwnAre(notes: seq<Note>, run: string) returns (at: seq<nat>)
    ensures Positions(at, |notes|, OwnAt(notes, run))
    ensures Matched(at, |Own(notes, run)|, SameNote(notes, Own(notes, run)))
  {
    if notes == [] {
      at := [];
    } else {
      var front, n := notes[..|notes| - 1], |notes| - 1;
      at := OwnAre(front, run);
      at := NextSelected(at, n, OwnAt(front, run), OwnAt(notes, run), |Own(front, run)|,
                         SameNote(front, Own(front, run)), SameNote(notes, Own(notes, run)));
    }
  }

  ghost function HeardAt(steps: seq<Step>, run: string): nat -> bool {
    (k: nat) => k < |steps| && steps[k].Noted? && steps[k].note.run == run
  }

  ghost function HeardAs(steps: seq<Step>, heard: seq<Note>): (nat, nat) -> bool {
    (j: nat, k: nat) => j < |heard| && k < |steps| && steps[k].Noted? && heard[j] == steps[k].note
  }

  /** The same of those that came while following. */
  lemma {:induction false} HeardAre(steps: seq<Step>, n: nat, run: string) returns (at: seq<nat>)
    requires n <= |steps|
    ensures Positions(at, n, HeardAt(steps, run)) &&
            Matched(at, |Heard(steps, n, run)|, HeardAs(steps, Heard(steps, n, run)))
  {
    if n == 0 {
      at := [];
    } else {
      at := HeardAre(steps, n - 1, run);
      at := NextSelected(at, n - 1, HeardAt(steps, run), HeardAt(steps, run), |Heard(steps, n - 1, run)|,
                         HeardAs(steps, Heard(steps, n - 1, run)), HeardAs(steps, Heard(steps, n, run)));
    }
  }

  /** Without a failure among what was told, the run's status decides how the stream finishes. */
  lemma StatusTells(told: seq<Told>, status: Option<Status>)
    requires NoFailure(EventsOf(told))
    ensures var reason := SettleReason(LatchedBy(told), status);
            && (reason == "error" <==> status == Some(RunFailed)) &&
            (reason == "other" <==> status == Some(RunCancelled))
            && (reason == "stop" <==> status != Some(RunFailed) && status != Some(RunCancelled))
  {
    LatchedIff(EventsOf(told));
    assert "error"[0] != "stop"[0] && "other"[0] != "stop"[0] && "error"[0] != "other"[0];
  }

  // ---- Text ------------------------------------------------------------------------------------

  /** The text of a frame of the log, and its reasoning. */
  function EntryText(e: Entry): string { if e.event.Some? then TextIn(e.event.value) else "" }

  function EntryThinking(e: Entry): string { if e.event.Some? then ThinkingIn(e.event.value) else "" }

  /** Lifecycle events carry no text. */
  ghost predicate Quiet(notes: seq<Note>) {
    forall k :: 0 <= k < |notes| && notes[k].event.Some? ==>
      !notes[k].event.value.Text? && !notes[k].event.value.Thinking?
  }

  lemma {:induction false} ToldText(told: seq<Told>)
    requires Quiet(Notes(told))
    ensures TextOf(EventsOf(told)) == Gather(Contents(told), EntryText)
    ensures ThinkingOf(EventsOf(told)) == Gather(Contents(told), EntryThinking)
  {
    if told != [] {
      var front, t := told[..|told| - 1], told[|told| - 1];
      assert Quiet(Notes(front)) by {
        assert forall k :: 0 <= k < |Notes(front)| ==> Notes(told)[k] == Notes(front)[k];
      }
      ToldText(front);
      assert t.Life? ==> Notes(told)[|Notes(told)| - 1] == t.note;
    }
  }

  /** Main result: the text a finished attach shows is that of the frames it delivered, in the
      order of the log: every frame of the run after the client's offset outside the holes. */
  lemma AttachedText(log: seq<Entry>, run: string, after: int, script: Script, a: Attached, followed: int,
                     lost: seq<Hole>, reason: string)
    requires Possible(log, script) && Delivers(log, run, after, script, a, followed, lost) && Quiet(Notes(a.told))
    ensures var e := EncodeAll(EventsOf(a.told));
            var whole := e.frames + Closing(e.flags, reason);
            TextShown(whole) == Gather(Frames(log, run, after, a.max, lost), EntryText) &&
            ReasoningShown(whole) == Gather(Frames(log, run, after, a.max, lost), EntryThinking)
  {
    ToldText(a.told);
    TextIsWhole(EventsOf(a.told), reason);
  }

  // ---- Frames of no run, and the end of a run ------------------------------------------------------

  /** Frames that belong to no run are shown to the clients of all of them; other frames to
      those of their own. */
  lemma SharedFrames(log: seq<Entry>, run: string, a: int, b: int, e: Entry)
    requires e in log && a < e.offset <= b
    ensures e in Frames(log, run, a, b, []) <==> e.run == "" || e.run == run
  {
    FramesMembers(log, run, a, b, []);
  }

  /** A run's own event ends the following exactly when it is shown as a status other than
      running. */
  lemma TerminalNoteTells(n: Note, f: Flags)
    ensures TerminalNote(n) <==>
            n.event.Some? &&
            exists k :: 0 <= k < |Encode(f, n.event.value).frames| && Encode(f, n.event.value).frames[k].RunStatus? &&
                        Encode(f, n.event.value).frames[k].status != "running"
  {
    assert "failed"[0] != "running"[0] && "done"[0] != "running"[0] && "cancelled"[0] != "running"[0];
    if TerminalNote(n) {
      var frames := Encode(f, n.event.value).frames;
      assert frames[|frames| - 1].RunStatus? && frames[|frames| - 1].status != "running";
    }
  }
}
