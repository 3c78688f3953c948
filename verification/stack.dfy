/** The player's control-flow stack: a bounded stack of tagged frames. */
module Stack {
  import opened Events
  import opened Errors

  datatype FrameKind = LoopFrame | JumpFrame | DrumModeFrame

  /** One frame. All kinds record the track and position to return to. A loop
      frame keeps its end position and remaining iteration count in
      `endPosition` and `loopCount`; a drum-mode frame reuses the same two
      fields for the caller's saved on-time and off-time. */
  datatype Frame = Frame(kind: FrameKind, track: Track, position: nat, endPosition: nat, loopCount: int)

  const MaxStackDepth: nat := 10

  /** The error raised when a frame of `kind` is missing, or is found where
      another kind was required. */
  function Underflow(kind: FrameKind): (k: ErrorKind)
    ensures k in {UnterminatedLoop, UnexpectedLoopEnd, DrumRoutineNoNote}
  {
    match kind
    case LoopFrame => UnterminatedLoop
    case JumpFrame => UnexpectedLoopEnd
    case DrumModeFrame => DrumRoutineNoNote
  }

  /** Distinct frame kinds are reported with distinct messages. */
  lemma UnderflowInjective(a: FrameKind, b: FrameKind)
    ensures Underflow(a) == Underflow(b) <==> a == b
  {
  }

  /** Push a frame, failing once the stack holds MaxStackDepth frames. */
  function Push(stack: seq<Frame>, frame: Frame, ref: nat): (r: Result<seq<Frame>>)
    ensures r.Ok? <==> |stack| < MaxStackDepth
    ensures r.Ok? ==> |r.value| == |stack| + 1 && r.value[..|stack|] == stack && r.value[|stack|] == frame
    ensures r.Err? ==> r.error == InputError(StackOverflow, ref)
  {
    if |stack| >= MaxStackDepth then Err(InputError(StackOverflow, ref))
    else Ok(stack + [frame])
  }

  /** The top frame, provided it has the requested kind. An empty stack is
      reported for the requested kind, a mismatched top for the top's own kind. */
  function Top(stack: seq<Frame>, kind: FrameKind, ref: nat): (r: Result<Frame>)
    ensures r.Ok? <==> |stack| > 0 && stack[|stack| - 1].kind == kind
    ensures r.Ok? ==> r.value == stack[|stack| - 1]
    ensures |stack| == 0 ==> r == Err(InputError(Underflow(kind), ref))
    ensures |stack| > 0 && stack[|stack| - 1].kind != kind ==>
              r == Err(InputError(Underflow(stack[|stack| - 1].kind), ref))
  {
    if |stack| == 0 then Err(InputError(Underflow(kind), ref))
    else if stack[|stack| - 1].kind != kind then Err(InputError(Underflow(stack[|stack| - 1].kind), ref))
    else Ok(stack[|stack| - 1])
  }

  /** Pop the top frame, checking its kind. The source does not check for an
      empty stack here, so neither may the caller. */
  function Pop(stack: seq<Frame>, kind: FrameKind, ref: nat): (r: Result<(Frame, seq<Frame>)>)
    requires |stack| > 0
    ensures r.Ok? <==> stack[|stack| - 1].kind == kind
    ensures r.Ok? ==> r.value.1 + [r.value.0] == stack
    ensures r.Err? ==> r.error == InputError(Underflow(stack[|stack| - 1].kind), ref)
  {
    var frame := stack[|stack| - 1];
    if frame.kind != kind then Err(InputError(Underflow(frame.kind), ref))
    else Ok((frame, stack[..|stack| - 1]))
  }

  /** Kind of the top frame, None for an empty stack. */
  function TopKind(stack: seq<Frame>): (k: Option<FrameKind>)
    ensures k.None? <==> |stack| == 0
    ensures k.Some? ==> k.value == stack[|stack| - 1].kind
  {
    if |stack| == 0 then None else Some(stack[|stack| - 1].kind)
  }

  /** Popping right after a successful push gives back the frame and the
      original stack. */
  lemma {:induction false} PushPopRoundTrip(stack: seq<Frame>, frame: Frame, ref: nat)
    requires |stack| < MaxStackDepth
    ensures Push(stack, frame, ref).Ok?
    ensures Pop(Push(stack, frame, ref).value, frame.kind, ref) == Ok((frame, stack))
  {
    var pushed := Push(stack, frame, ref).value;
    assert pushed == stack + [frame];
    assert pushed[..|pushed| - 1] == stack;
  }
}
