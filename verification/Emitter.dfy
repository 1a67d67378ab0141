/** The ui-message-stream encoder (internal/chatapi/emitter.go:22-68, 134-418). */
module Emitter {
  import opened Provider

  /** What the emitter is told. Payloads arrive decoded; `input` is the marshalled call
      input, None when there is none. */
  datatype Event =
    | Running
    | Thinking(delta: string)
    | Text(delta: string)
    | StepStart
    | StepFinish(reason: string, inTokens: nat, outTokens: nat, continued: bool)
    | ToolArgs(id: string, name: string, delta: string)
    | ToolUse(id: string, name: string, input: Option<string>)
    | ToolResult(id: string, result: string, isError: bool)
    | Data(name: string)
    | Usage(inTokens: nat, outTokens: nat)
    | Done
    | Error(text: string)
    | Cancelled

  /** What goes over the wire. */
  datatype Wire =
    | RunStatus(status: string)
    | ReasoningStart | ReasoningDelta(text: string) | ReasoningEnd
    | TextStart | TextDelta(text: string) | TextEnd
    | StepBegin | StepEnd(reason: string, inTokens: nat, outTokens: nat, continued: bool)
    | CallStart(id: string, name: string) | CallDelta(id: string, args: string) | CallEnd(id: string)
    | CallResult(id: string, result: string, isError: bool)
    | DataFrame(name: string)
    | ErrorText(text: string)
    | Finish(reason: string, inTokens: nat, outTokens: nat)
    | EndOfStream

  /** The emitter's fields, apart from the connection. `trackers` says whether the two call
      maps exist: they are made when the first non-empty id is started. */
  datatype Flags = Flags(
    textStarted: bool,
    thinkOpen: bool,
    trackers: bool,
    toolStarted: set<string>,
    argsStreamed: set<string>,
    finishReason: string,
    lastStepReason: string,
    lastStepContinued: bool,
    usageIn: nat,
    usageOut: nat)

  const FRESH := Flags(false, false, false, {}, {}, "", "", false, 0, 0)

  datatype Encoded = Encoded(flags: Flags, frames: seq<Wire>)

  // ---- Specification ---------------------------------------------------------------------

  function CloseThinking(f: Flags): Encoded {
    if f.thinkOpen then Encoded(f.(thinkOpen := false), [ReasoningEnd]) else Encoded(f, [])
  }

  function OpenCall(f: Flags, id: string, name: string): Encoded {
    if id == "" then Encoded(f, [])
    else if id in f.toolStarted then Encoded(f.(trackers := true), [])
    else Encoded(f.(trackers := true, toolStarted := f.toolStarted + {id}), [CallStart(id, name)])
  }

  /** Assigning to a map that was never made: argument text for an empty id before any call
      with an id was started. */
  predicate Panics(f: Flags, e: Event) {
    e.ToolArgs? && e.id == "" && e.delta != "" && !f.trackers
  }

  function Encode(f: Flags, e: Event): Encoded {
    match e
    case Running => Encoded(f, [RunStatus("running")])
    case Thinking(delta) =>
      Encoded(f.(thinkOpen := true), (if f.thinkOpen then [] else [ReasoningStart]) + [ReasoningDelta(delta)])
    case Text(delta) =>
      var closed := CloseThinking(f);
      Encoded(closed.flags.(textStarted := true),
              closed.frames + (if f.textStarted then [] else [TextStart]) + [TextDelta(delta)])
    case StepStart => Encoded(f, [StepBegin])
    case StepFinish(reason, i, o, continued) =>
      Encoded(f.(lastStepReason := reason, lastStepContinued := continued), [StepEnd(reason, i, o, continued)])
    case ToolArgs(id, name, delta) =>
      var call := OpenCall(f, id, name);
      if delta == "" then call
      else Encoded(call.flags.(argsStreamed := call.flags.argsStreamed + {id}), call.frames + [CallDelta(id, delta)])
    case ToolUse(id, name, input) =>
      var call := OpenCall(f, id, name);
      Encoded(call.flags,
              call.frames + (if id !in f.argsStreamed && input.Some? then [CallDelta(id, input.value)] else []) +
                [CallEnd(id)])
    case ToolResult(id, result, isError) => Encoded(f, [CallResult(id, result, isError)])
    case Data(name) => Encoded(f, [DataFrame(name)])
    case Usage(i, o) => Encoded(f.(usageIn := i, usageOut := o), [DataFrame("usage")])
    case Done => Encoded(f, [RunStatus("done")])
    case Error(text) =>
      Encoded(f.(finishReason := if f.lastStepReason == "length" && !f.lastStepContinued then "length" else "error"),
              [ErrorText(text), RunStatus("failed")])
    case Cancelled =>
      var closed := CloseThinking(f);
      Encoded(closed.flags.(textStarted := false, finishReason := "other"),
              closed.frames + (if f.textStarted then [TextEnd] else []) + [RunStatus("cancelled")])
  }

  function FinishReason(f: Flags, reason: string): string {
    if reason != "" then reason else if f.finishReason != "" then f.finishReason else "stop"
  }

  function Closing(f: Flags, reason: string): seq<Wire> {
    CloseThinking(f).frames + (if f.textStarted then [TextEnd] else []) +
    [Finish(FinishReason(f, reason), f.usageIn, f.usageOut), EndOfStream]
  }

  lemma ClosingIs(before: seq<Wire>, f: Flags, reason: string)
    ensures before + CloseThinking(f).frames + (if f.textStarted then [TextEnd] else []) +
            [Finish(FinishReason(f, reason), f.usageIn, f.usageOut)] + [EndOfStream] == before + Closing(f, reason)
  {
  }

  // ---- The source's object --------------------------------------------------------------------

  /** `failAt` is the write that fails, if any does; a failed write is latched, and nothing is
      written after it. `intended` is what would have been written without the failure. */
  class SseEmitter {
    var textStarted: bool
    var thinkOpen: bool
    var trackers: bool
    var toolStarted: set<string>
    var argsStreamed: set<string>
    var finishReason: string
    var lastStepReason: string
    var lastStepContinued: bool
    var usageIn: nat
    var usageOut: nat
    var writeErr: bool
    var written: seq<Wire>
    ghost var intended: seq<Wire>
    const failAt: Option<nat>

    function Value(): Flags
      reads this
    {
      Flags(textStarted, thinkOpen, trackers, toolStarted, argsStreamed, finishReason, lastStepReason,
            lastStepContinued, usageIn, usageOut)
    }

    /** What reached the client is what was intended, up to the write that failed. */
    ghost predicate Valid()
      reads this
    {
      && (writeErr <==> failAt.Some? && failAt.value < |intended|)
      && written <= intended && |written| == if writeErr then failAt.value else |intended|
    }

    constructor (failAt: Option<nat>)
      ensures Valid() && Value() == FRESH && written == intended == [] && !writeErr && this.failAt == failAt
    {
      this.failAt := failAt;
      textStarted, thinkOpen, trackers, toolStarted, argsStreamed := false, false, false, {}, {};
      finishReason, lastStepReason, lastStepContinued, usageIn, usageOut := "", "", false, 0, 0;
      writeErr, written, intended := false, [], [];
    }

    method Write(w: Wire)
      requires Valid()
      modifies this`written, this`writeErr, this`intended
      ensures Valid() && intended == old(intended) + [w] && Value() == old(Value())
      ensures old(writeErr) ==> writeErr
    {
      intended := intended + [w];
      if writeErr {
        return;
      }
      if failAt == Some(|written|) {
        writeErr := true;
      } else {
        written := written + [w];
      }
    }

    method WriteToolCallStart(id: string, name: string)
      requires Valid()
      modifies this`written, this`writeErr, this`intended, this`trackers, this`toolStarted
      ensures Valid() && Value() == OpenCall(old(Value()), id, name).flags
      ensures intended == old(intended) + OpenCall(old(Value()), id, name).frames
    {
      if id == "" {
        return;
      }
      trackers := true;
      if id in toolStarted {
        return;
      }
      toolStarted := toolStarted + {id};
      Write(CallStart(id, name));
    }

    method EndThinking()
      requires Valid()
      modifies this`written, this`writeErr, this`intended, this`thinkOpen
      ensures Valid() && Value() == CloseThinking(old(Value())).flags
      ensures intended == old(intended) + CloseThinking(old(Value())).frames
    {
      if thinkOpen {
        Write(ReasoningEnd);
        thinkOpen := false;
      }
    }

    /** Encode one event. Nothing happens once the run's context is cancelled or a write has
        failed; otherwise the error reported is the latched one. */
    method Emit(ctxDone: bool, e: Event) returns (failed: bool)
      requires Valid() && (ctxDone || writeErr || !Panics(Value(), e))
      modifies this
      ensures Valid()
      ensures ctxDone || old(writeErr) ==>
                failed && Value() == old(Value()) && intended == old(intended) && written == old(written) &&
                writeErr == old(writeErr)
      ensures !ctxDone && !old(writeErr) ==>
                failed == writeErr && Value() == Encode(old(Value()), e).flags &&
                intended == old(intended) + Encode(old(Value()), e).frames
    {
      if ctxDone || writeErr {
        return true;
      }
      if e.Thinking? || e.Text? {
        EmitDelta(e);
      } else if e.ToolArgs? || e.ToolUse? {
        EmitCall(e);
      } else if e.Error? {
        EmitError(e.text);
      } else if e.Cancelled? {
        EmitCancelled();
      } else {
        EmitOther(e);
      }
      failed := writeErr;
    }

    method EmitDelta(e: Event)
      requires Valid() && (e.Thinking? || e.Text?)
      modifies this
      ensures Valid() && Value() == Encode(old(Value()), e).flags
      ensures intended == old(intended) + Encode(old(Value()), e).frames
    {
      if e.Thinking? {
        if !thinkOpen {
          Write(ReasoningStart);
          thinkOpen := true;
        }
        Write(ReasoningDelta(e.delta));
      } else {
        EndThinking();
        if !textStarted {
          Write(TextStart);
          textStarted := true;
        }
        Write(TextDelta(e.delta));
      }
    }

    method EmitCall(e: Event)
      requires Valid() && (e.ToolArgs? || e.ToolUse?) && !Panics(Value(), e)
      modifies this
      ensures Valid() && Value() == Encode(old(Value()), e).flags
      ensures intended == old(intended) + Encode(old(Value()), e).frames
    {
      WriteToolCallStart(e.id, e.name);
      if e.ToolArgs? {
        if e.delta != "" {
          Write(CallDelta(e.id, e.delta));
          argsStreamed := argsStreamed + {e.id};
        }
      } else {
        if e.id !in argsStreamed && e.input.Some? {
          Write(CallDelta(e.id, e.input.value));
        }
        Write(CallEnd(e.id));
      }
    }

    method EmitError(text: string)
      requires Valid()
      modifies this
      ensures Valid() && Value() == Encode(old(Value()), Error(text)).flags
      ensures intended == old(intended) + Encode(old(Value()), Error(text)).frames
    {
      Write(ErrorText(text));
      finishReason := if lastStepReason == "length" && !lastStepContinued then "length" else "error";
      Write(RunStatus("failed"));
    }

    method EmitCancelled()
      requires Valid()
      modifies this
      ensures Valid() && Value() == Encode(old(Value()), Cancelled).flags
      ensures intended == old(intended) + Encode(old(Value()), Cancelled).frames
    {
      EndThinking();
      if textStarted {
        Write(TextEnd);
        textStarted := false;
      }
      finishReason := "other";
      Write(RunStatus("cancelled"));
    }

    method EmitOther(e: Event)
      requires Valid() && !e.Thinking? && !e.Text? && !e.ToolArgs? && !e.ToolUse? && !e.Error? && !e.Cancelled?
      modifies this
      ensures Valid() && Value() == Encode(old(Value()), e).flags
      ensures intended == old(intended) + Encode(old(Value()), e).frames
    {
      match e {
        case Running => Write(RunStatus("running"));
        case StepStart => Write(StepBegin);
        case StepFinish(reason, i, o, continued) =>
          lastStepReason, lastStepContinued := reason, continued;
          Write(StepEnd(reason, i, o, continued));
        case ToolResult(id, result, isError) => Write(CallResult(id, result, isError));
        case Data(name) => Write(DataFrame(name));
        case Usage(i, o) =>
          usageIn, usageOut := i, o;
          Write(DataFrame("usage"));
        case Done => Write(RunStatus("done"));
      }
    }

    method FinishWithReason(reason: string)
      requires Valid()
      modifies this
      ensures Valid() && intended == old(intended) + Closing(old(Value()), reason)
    {
      ghost var before, flags := intended, Value();
      EndThinking();
      if textStarted {
        Write(TextEnd);
      }
      var r := reason;
      if r == "" {
        r := finishReason;
      }
      if r == "" {
        r := "stop";
      }
      assert r == FinishReason(flags, reason);
      Write(Finish(r, usageIn, usageOut));
      Write(EndOfStream);
      ClosingIs(before, flags, reason);
    }
  }
}
