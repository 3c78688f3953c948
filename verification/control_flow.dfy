/** Properties of step_event's control flow: stack bounds and type
    discipline, jumps and returns, segno restarts and loop counting, and the
    iteration count of `[ ]n` loops. */
module ControlFlow {
  import opened Events
  import opened Errors
  import opened Stack
  import opened BasicPlayer
  import opened Interpreter
  import Player

  /** `k` consecutive applications of `step`, stopping at the first failure. */
  function Iterate(step: Machine -> Result<Machine>, m: Machine, k: nat): Result<Machine>
    decreases k
  {
    if k == 0 then Ok(m)
    else
      var next :- step(m);
      Iterate(step, next, k - 1)
  }

  /** Iterating a+b times is iterating a times and then b more. */
  lemma {:induction false} IterateAdd(step: Machine -> Result<Machine>, m: Machine, a: nat, b: nat)
    ensures Iterate(step, m, a + b) ==
              (match Iterate(step, m, a)
               case Ok(mid) => Iterate(step, mid, b)
               case Err(e) => Err(e))
    decreases a
  {
    if a > 0 {
      match step(m)
      case Ok(next) =>
        IterateAdd(step, next, a - 1, b);
      case Err(_) =>
    }
  }

  function Stepper(song: Song): Machine -> Result<Machine>
  {
    m => StepEvent(m, song)
  }

  /** `k` consecutive steps, stopping at the first failure. */
  function Steps(m: Machine, song: Song, k: nat): Result<Machine>
  {
    Iterate(Stepper(song), m, k)
  }

  /** A property every step keeps holds after any number of steps. */
  lemma {:induction false} IterateKeeps(step: Machine -> Result<Machine>, inv: Machine -> bool, m: Machine, k: nat)
    requires forall x {:trigger step(x)} :: inv(x) && step(x).Ok? ==> inv(step(x).value)
    requires inv(m)
    ensures Iterate(step, m, k).Ok? ==> inv(Iterate(step, m, k).value)
    decreases k
  {
    if k > 0 && step(m).Ok? {
      IterateKeeps(step, inv, step(m).value, k - 1);
    }
  }

  /** Starting within the bound, the stack never holds more than
      MaxStackDepth frames, however many steps are taken. */
  lemma DepthNeverExceedsLimit(m: Machine, song: Song, k: nat)
    requires |m.core.stack| <= MaxStackDepth
    ensures Steps(m, song, k).Ok? ==> |Steps(m, song, k).value.core.stack| <= MaxStackDepth
  {
    var inv := (x: Machine) => |x.core.stack| <= MaxStackDepth;
    forall x | inv(x) && Stepper(song)(x).Ok?
      ensures inv(Stepper(song)(x).value)
    {
    }
    IterateKeeps(Stepper(song), inv, m, k);
  }

  /** The confirmed loop count never overtakes the restart count. */
  lemma CountsStayOrdered(m: Machine, song: Song, k: nat)
    requires CountsOrdered(m.core)
    ensures Steps(m, song, k).Ok? ==> CountsOrdered(Steps(m, song, k).value.core)
  {
    var inv := (x: Machine) => CountsOrdered(x.core);
    forall x | inv(x) && Stepper(song)(x).Ok?
      ensures inv(Stepper(song)(x).value)
    {
    }
    IterateKeeps(Stepper(song), inv, m, k);
  }

  /** A loop start on a full stack fails with a stack overflow. */
  lemma LoopStartOverflows(m: Machine, song: Song)
    requires CurrentEvent(m.core).kind == LoopStart
    requires |m.core.stack| >= MaxStackDepth
    ensures StepEvent(m, song) == Err(InputError(StackOverflow, CurrentEvent(m.core).ref))
  {
  }

  /** A loop start below the limit pushes a loop frame that returns to the
      first event of the loop body, with the iteration count still unset. */
  lemma LoopStartPushes(m: Machine, song: Song)
    requires CurrentEvent(m.core).kind == LoopStart
    requires |m.core.stack| < MaxStackDepth
    ensures StepEvent(m, song).Ok?
    ensures var r := StepEvent(m, song).value.core;
      && r.stack == m.core.stack + [Frame(LoopFrame, m.core.track, m.core.position + 1, 0, 0)]
      && r.position == m.core.position + 1 && r.track == m.core.track
    ensures StepEvent(m, song).value.mode == m.mode
  {
  }

  /** At END, a non-jump frame on top is an error reported for that frame:
      an open loop is "unterminated", an open drum routine "contains no note". */
  lemma EndWithOpenFrameFails(m: Machine, song: Song)
    requires CurrentEvent(m.core).kind == End
    requires |m.core.stack| > 0 && m.core.stack[|m.core.stack| - 1].kind != JumpFrame
    ensures StepEvent(m, song) ==
              Err(InputError(Underflow(m.core.stack[|m.core.stack| - 1].kind), CurrentEvent(m.core).ref))
    ensures m.core.stack[|m.core.stack| - 1].kind == LoopFrame ==>
              StepEvent(m, song).error.kind == UnterminatedLoop
    ensures m.core.stack[|m.core.stack| - 1].kind == DrumModeFrame ==>
              StepEvent(m, song).error.kind == DrumRoutineNoNote
  {
  }

  /** A loop end or break needs a loop frame on top: an empty stack is
      reported for the loop kind, a jump frame as an unexpected loop end. */
  lemma LoopEndNeedsLoopFrame(m: Machine, song: Song)
    requires CurrentEvent(m.core).kind in {LoopEnd, LoopBreak}
    requires |m.core.stack| == 0 || m.core.stack[|m.core.stack| - 1].kind != LoopFrame
    ensures StepEvent(m, song).Err?
    ensures |m.core.stack| == 0 ==> StepEvent(m, song).error.kind == UnterminatedLoop
    ensures |m.core.stack| > 0 && m.core.stack[|m.core.stack| - 1].kind == JumpFrame ==>
              StepEvent(m, song).error.kind == UnexpectedLoopEnd
  {
  }

  /** LOOP_END: an unset count is taken from the event, then decremented;
      while it stays positive play jumps back to the loop body, otherwise the
      frame is popped and play continues after the loop end. */
  lemma LoopEndStep(m: Machine, song: Song)
    requires CurrentEvent(m.core).kind == LoopEnd
    requires |m.core.stack| > 0 && m.core.stack[|m.core.stack| - 1].kind == LoopFrame
    ensures StepEvent(m, song).Ok?
    ensures var top := m.core.stack[|m.core.stack| - 1];
      var count := (if top.loopCount == 0 then CurrentEvent(m.core).param else top.loopCount) - 1;
      var r := StepEvent(m, song).value.core;
      && r.track == m.core.track
      && (count > 0 ==>
            && r.position == top.position
            && r.stack == m.core.stack[|m.core.stack| - 1 := top.(endPosition := m.core.position + 1, loopCount := count)])
      && (count <= 0 ==> r.position == m.core.position + 1 && r.stack == m.core.stack[..|m.core.stack| - 1])
    ensures StepEvent(m, song).value.mode == m.mode
  {
  }

  /** LOOP_BREAK: on the final iteration (count 1) play jumps to the loop's
      end and the frame is popped; on any other iteration nothing changes but
      the position. */
  lemma LoopBreakStep(m: Machine, song: Song)
    requires CurrentEvent(m.core).kind == LoopBreak
    requires |m.core.stack| > 0 && m.core.stack[|m.core.stack| - 1].kind == LoopFrame
    ensures StepEvent(m, song).Ok?
    ensures var top := m.core.stack[|m.core.stack| - 1];
      var r := StepEvent(m, song).value.core;
      && r.track == m.core.track
      && (top.loopCount == 1 ==> r.position == top.endPosition && r.stack == m.core.stack[..|m.core.stack| - 1])
      && (top.loopCount != 1 ==> r.position == m.core.position + 1 && r.stack == m.core.stack)
    ensures StepEvent(m, song).value.mode == m.mode
  {
  }

  /** A jump to an undefined track fails and pushes nothing. */
  lemma JumpToMissingTrackFails(m: Machine, song: Song)
    requires CurrentEvent(m.core).kind == Jump
    requires CurrentEvent(m.core).param !in song.tracks
    ensures StepEvent(m, song) == Err(InputError(JumpDestinationMissing, CurrentEvent(m.core).ref))
  {
  }

  /** A jump on a full stack fails too, with the same message: the overflow
      raised inside the lookup's try block is caught and re-reported. */
  lemma JumpOnFullStackFails(m: Machine, song: Song)
    requires CurrentEvent(m.core).kind == Jump
    requires |m.core.stack| >= MaxStackDepth
    ensures StepEvent(m, song) == Err(InputError(JumpDestinationMissing, CurrentEvent(m.core).ref))
  {
  }

  /** A jump to a defined track saves the caller's track and the position
      after the jump, and starts the target track at position 0. */
  lemma JumpEnters(m: Machine, song: Song)
    requires CurrentEvent(m.core).kind == Jump
    requires CurrentEvent(m.core).param in song.tracks
    requires |m.core.stack| < MaxStackDepth
    ensures StepEvent(m, song).Ok?
    ensures var r := StepEvent(m, song).value;
      && r.core.stack == m.core.stack + [Frame(JumpFrame, m.core.track, m.core.position + 1, 0, 0)]
      && r.core.track == song.tracks[CurrentEvent(m.core).param]
      && r.core.position == 0
      && r.mode == m.mode
  {
  }

  /** Jump and return: once the jumped-to track ends with the jump frame
      still on top, play resumes in the caller's track just after the jump,
      with the caller's stack. */
  lemma {:induction false} JumpReturnRoundTrip(m: Machine, song: Song, m2: Machine)
    requires CurrentEvent(m.core).kind == Jump
    requires StepEvent(m, song).Ok?
    requires m2.core.stack == StepEvent(m, song).value.core.stack
    requires CurrentEvent(m2.core).kind == End
    ensures StepEvent(m2, song).Ok?
    ensures var r := StepEvent(m2, song).value.core;
      && r.track == m.core.track
      && r.position == m.core.position + 1
      && r.stack == m.core.stack
  {
    var saved := Frame(JumpFrame, m.core.track, m.core.position + 1, 0, 0);
    assert |m.core.stack| < MaxStackDepth && CurrentEvent(m.core).param in song.tracks;
    JumpEnters(m, song);
    assert m2.core.stack == m.core.stack + [saved];
    assert m2.core.stack[..|m2.core.stack| - 1] == m.core.stack;
  }

  /** SEGNO marks the position after it as both the restart point and the
      loop-count confirmation point. */
  lemma SegnoMarksRestart(m: Machine, song: Song)
    requires CurrentEvent(m.core).kind == Segno
    ensures StepEvent(m, song).Ok? || m.mode.Playing?
    ensures StepEvent(m, song).Ok? ==>
              var r := StepEvent(m, song).value.core;
              && r.loopPosition == Some(m.core.position + 1)
              && r.loopResetPosition == Some(m.core.position + 1)
              && r.position == m.core.position + 1
  {
  }

  /** A restart sends play back to the segno and counts it. */
  lemma RestartGoesToSegno(m: Machine, song: Song)
    requires Restarts(m)
    ensures StepEvent(m, song).Ok?
    ensures var r := StepEvent(m, song).value.core;
      && r.position == m.core.loopPosition.value && r.loopCount == m.core.loopCount + 1
      && r.stack == [] && r.track == m.core.track
  {
  }

  /** END with an empty stack stops play unless the step restarts. A
      validator never restarts, so its END always stops it. */
  lemma EndStopsUnlessRestart(m: Machine, song: Song)
    requires CurrentEvent(m.core).kind == End && |m.core.stack| == 0
    requires m.core.enabled
    ensures StepEvent(m, song).Ok?
    ensures StepEvent(m, song).value.core.enabled == Restarts(m)
    ensures m.mode.Validating? ==> !StepEvent(m, song).value.core.enabled
  {
  }

  // ---------------------------------------------------------------------
  // Loop iteration

  /** The events step_event itself acts on besides SEGNO. */
  predicate Control(t: EventType)
  {
    t in {LoopStart, LoopBreak, LoopEnd, Jump, End}
  }

  /** An event a loop body may hold for the iteration lemmas: anything but
      control flow. In a Player, a PLATFORM must name a defined command and a
      DRUM_MODE must switch drum mode off, so that every NOTE plays in place
      instead of calling a drum routine. */
  predicate BodyEvent(e: Event, song: Song, player: bool)
  {
    && !Control(e.kind)
    && (player && e.kind == Platform ==> e.param in song.platformCommands)
    && (player && e.kind == DrumMode ==> e.param == 0)
  }

  /** The running subclass is the one expected; a Player has drum mode off. */
  predicate Quiet(x: Machine, player: bool)
  {
    if player then x.mode.Playing? && Player.DrumBase(x.mode.vars) == 0 else x.mode.Validating?
  }

  function QuietFor(player: bool): Machine -> bool
  {
    x => Quiet(x, player)
  }

  /** A body event only moves on by one event, and drum mode stays off. */
  lemma BodyStep(x: Machine, song: Song, player: bool)
    requires x.core.position < |x.core.track| && BodyEvent(x.core.track[x.core.position], song, player)
    requires Quiet(x, player)
    ensures StepEvent(x, song).Ok?
    ensures var r := StepEvent(x, song).value;
      && r.core.position == x.core.position + 1 && r.core.track == x.core.track && r.core.stack == x.core.stack
      && Quiet(r, player)
  {
    var b := x.(core := Begin(x.core));
    var e := b.core.event;
    assert e == x.core.track[x.core.position];
    var h := if e.kind == Segno then b.(core := b.core.(loopPosition := Some(b.core.position), loopResetPosition := Some(b.core.position))) else b;
    assert Dispatch(b, song) == EventHook(h, song);
    if player && e.kind in {Note, Platform} {
      assert Player.HandleEvent(h.core, h.mode.vars, song) == Ok(Player.PlayerState(h.core, h.mode.vars));
    }
  }

  /** A loop at position p of track t: LOOP_START, a body of b events, then
      LOOP_END with count n. */
  predicate LoopAt(t: Track, p: nat, b: nat, n: int, song: Song, player: bool)
  {
    && p + b + 1 < |t|
    && t[p].kind == LoopStart
    && (forall i :: p < i <= p + b ==> BodyEvent(t[i], song, player))
    && t[p + b + 1].kind == LoopEnd
    && t[p + b + 1].param == n
  }

  /** A loop `[ A / B ]n` at position p of track t: LOOP_START, a body of b
      events whose event a+1 is the LOOP_BREAK (A before it, B after it),
      then LOOP_END with count n. */
  predicate BreakLoopAt(t: Track, p: nat, a: nat, b: nat, n: int, song: Song, player: bool)
  {
    && a < b && p + b + 1 < |t|
    && t[p].kind == LoopStart
    && (forall i :: p < i <= p + b && i != p + a + 1 ==> BodyEvent(t[i], song, player))
    && t[p + a + 1].kind == LoopBreak
    && t[p + b + 1].kind == LoopEnd
    && t[p + b + 1].param == n
  }

  /** How often the body of `[ ]n` runs: n times, and once when n < 1. */
  function Times(n: int): nat
  {
    if n >= 1 then n else 1
  }

  /** Iterations still to run, seen from the loop frame's count at the start
      of the body (0 while the count is still unset). */
  function Remaining(count: int, n: int): int
  {
    if count == 0 then Times(n) else count
  }

  /** Steps taken by k passes through a body of b events and its loop end,
      counted out pass by pass. */
  function Span(k: nat, b: nat): nat
  {
    if k == 0 then 0 else (b + 1) + Span(k - 1, b)
  }

  /** k passes take k*(b+1) steps. */
  lemma {:induction false} SpanIsProduct(k: nat, b: nat)
    ensures Span(k, b) == k * (b + 1)
  {
    if k > 0 {
      SpanIsProduct(k - 1, b);
    }
  }

  /** A step that only moves on by one event. */
  predicate PlainMove(x: Machine, r: Result<Machine>)
  {
    r.Ok? && r.value.core.position == x.core.position + 1
    && r.value.core.track == x.core.track && r.value.core.stack == x.core.stack
  }

  /** The LOOP_START step: push a loop frame returning to the next event. */
  predicate StartMove(x: Machine, r: Result<Machine>)
  {
    r.Ok? && r.value.core.position == x.core.position + 1 && r.value.core.track == x.core.track
    && r.value.core.stack == x.core.stack + [Frame(LoopFrame, x.core.track, x.core.position + 1, 0, 0)]
  }

  /** The LOOP_END step of a `[ ]n` loop whose frame is on top of x's stack. */
  predicate EndMove(x: Machine, n: int, r: Result<Machine>)
    requires |x.core.stack| > 0
  {
    var last := |x.core.stack| - 1;
    var top := x.core.stack[last];
    var count := (if top.loopCount == 0 then n else top.loopCount) - 1;
    && r.Ok? && r.value.core.track == x.core.track
    && (count > 0 ==>
          && r.value.core.position == top.position
          && r.value.core.stack == x.core.stack[last := top.(endPosition := x.core.position + 1, loopCount := count)])
    && (count <= 0 ==> r.value.core.position == x.core.position + 1 && r.value.core.stack == x.core.stack[..last])
  }

  /** The LOOP_BREAK step: leave the loop on count 1, else move on. */
  predicate BreakMove(x: Machine, r: Result<Machine>)
    requires |x.core.stack| > 0
  {
    var last := |x.core.stack| - 1;
    var top := x.core.stack[last];
    && r.Ok? && r.value.core.track == x.core.track
    && (top.loopCount == 1 ==> r.value.core.position == top.endPosition && r.value.core.stack == x.core.stack[..last])
    && (top.loopCount != 1 ==> r.value.core.position == x.core.position + 1 && r.value.core.stack == x.core.stack)
  }

  /** What the loop lemmas below assume of a step function on the events of
      a loop, from states satisfying `inv`, which each such step keeps. */
  ghost predicate StartSteps(step: Machine -> Result<Machine>, inv: Machine -> bool, t: Track, p: nat)
  {
    forall x: Machine {:trigger step(x)} ::
      (inv(x) && x.core.track == t && x.core.position == p && |x.core.stack| < MaxStackDepth) ==>
        StartMove(x, step(x)) && inv(step(x).value)
  }

  ghost predicate PlainSteps(step: Machine -> Result<Machine>, inv: Machine -> bool, t: Track, lo: nat, hi: nat)
  {
    forall x: Machine {:trigger step(x)} ::
      (inv(x) && x.core.track == t && lo <= x.core.position < hi) ==>
        PlainMove(x, step(x)) && inv(step(x).value)
  }

  ghost predicate EndSteps(step: Machine -> Result<Machine>, inv: Machine -> bool, t: Track, q: nat, n: int)
  {
    forall x: Machine {:trigger step(x)} ::
      (inv(x) && x.core.track == t && x.core.position == q && |x.core.stack| > 0
       && x.core.stack[|x.core.stack| - 1].kind == LoopFrame) ==>
        EndMove(x, n, step(x)) && inv(step(x).value)
  }

  ghost predicate BreakSteps(step: Machine -> Result<Machine>, inv: Machine -> bool, t: Track, q: nat)
  {
    forall x: Machine {:trigger step(x)} ::
      (inv(x) && x.core.track == t && x.core.position == q && |x.core.stack| > 0
       && x.core.stack[|x.core.stack| - 1].kind == LoopFrame) ==>
        BreakMove(x, step(x)) && inv(step(x).value)
  }

  /** The steps of a `[ body ]n` loop at p of t. */
  ghost predicate LoopSteps(step: Machine -> Result<Machine>, inv: Machine -> bool, t: Track, p: nat, b: nat, n: int)
  {
    && StartSteps(step, inv, t, p)
    && PlainSteps(step, inv, t, p + 1, p + b + 1)
    && EndSteps(step, inv, t, p + b + 1, n)
  }

  /** The steps of a `[ A / B ]n` loop at p of t, with the break at p+a+1. */
  ghost predicate BreakLoopSteps(step: Machine -> Result<Machine>, inv: Machine -> bool, t: Track, p: nat, a: nat, b: nat, n: int)
  {
    && StartSteps(step, inv, t, p)
    && PlainSteps(step, inv, t, p + 1, p + a + 1)
    && BreakSteps(step, inv, t, p + a + 1)
    && PlainSteps(step, inv, t, p + a + 2, p + b + 1)
    && EndSteps(step, inv, t, p + b + 1, n)
  }

  lemma StepperStarts(song: Song, player: bool, t: Track, p: nat)
    requires p < |t| && t[p].kind == LoopStart
    ensures StartSteps(Stepper(song), QuietFor(player), t, p)
  {
    forall x: Machine | QuietFor(player)(x) && x.core.track == t && x.core.position == p && |x.core.stack| < MaxStackDepth
      ensures StartMove(x, Stepper(song)(x)) && QuietFor(player)(Stepper(song)(x).value)
    {
      assert CurrentEvent(x.core) == t[p];
      LoopStartPushes(x, song);
    }
  }

  lemma StepperPlays(song: Song, player: bool, t: Track, lo: nat, hi: nat)
    requires hi <= |t| && forall i :: lo <= i < hi ==> BodyEvent(t[i], song, player)
    ensures PlainSteps(Stepper(song), QuietFor(player), t, lo, hi)
  {
    forall x: Machine | QuietFor(player)(x) && x.core.track == t && lo <= x.core.position < hi
      ensures PlainMove(x, Stepper(song)(x)) && QuietFor(player)(Stepper(song)(x).value)
    {
      BodyStep(x, song, player);
    }
  }

  lemma StepperEnds(song: Song, player: bool, t: Track, q: nat)
    requires q < |t| && t[q].kind == LoopEnd
    ensures EndSteps(Stepper(song), QuietFor(player), t, q, t[q].param)
  {
    forall x: Machine | QuietFor(player)(x) && x.core.track == t && x.core.position == q && |x.core.stack| > 0
        && x.core.stack[|x.core.stack| - 1].kind == LoopFrame
      ensures EndMove(x, t[q].param, Stepper(song)(x)) && QuietFor(player)(Stepper(song)(x).value)
    {
      assert CurrentEvent(x.core) == t[q];
      LoopEndStep(x, song);
    }
  }

  lemma StepperBreaks(song: Song, player: bool, t: Track, q: nat)
    requires q < |t| && t[q].kind == LoopBreak
    ensures BreakSteps(Stepper(song), QuietFor(player), t, q)
  {
    forall x: Machine | QuietFor(player)(x) && x.core.track == t && x.core.position == q && |x.core.stack| > 0
        && x.core.stack[|x.core.stack| - 1].kind == LoopFrame
      ensures BreakMove(x, Stepper(song)(x)) && QuietFor(player)(Stepper(song)(x).value)
    {
      assert CurrentEvent(x.core) == t[q];
      LoopBreakStep(x, song);
    }
  }

  /** On the events of a `[ body ]n` loop, step_event takes the steps the
      loop lemmas assume. */
  lemma StepperTakesLoopSteps(song: Song, player: bool, t: Track, p: nat, b: nat, n: int)
    requires LoopAt(t, p, b, n, song, player)
    ensures LoopSteps(Stepper(song), QuietFor(player), t, p, b, n)
  {
    StepperStarts(song, player, t, p);
    StepperPlays(song, player, t, p + 1, p + b + 1);
    StepperEnds(song, player, t, p + b + 1);
  }

  /** The same for a `[ A / B ]n` loop. */
  lemma StepperTakesBreakLoopSteps(song: Song, player: bool, t: Track, p: nat, a: nat, b: nat, n: int)
    requires BreakLoopAt(t, p, a, b, n, song, player)
    ensures BreakLoopSteps(Stepper(song), QuietFor(player), t, p, a, b, n)
  {
    StepperStarts(song, player, t, p);
    StepperPlays(song, player, t, p + 1, p + a + 1);
    StepperBreaks(song, player, t, p + a + 1);
    StepperPlays(song, player, t, p + a + 2, p + b + 1);
    StepperEnds(song, player, t, p + b + 1);
  }

  /** A run of k body events is played straight through. */
  lemma {:induction false} PlainRun(step: Machine -> Result<Machine>, inv: Machine -> bool, m: Machine, t: Track, lo: nat, hi: nat, k: nat)
    requires PlainSteps(step, inv, t, lo, hi) && inv(m)
    requires m.core.track == t && lo <= m.core.position && m.core.position + k <= hi
    ensures Iterate(step, m, k).Ok?
    ensures var r := Iterate(step, m, k).value;
      && r.core.position == m.core.position + k && r.core.track == t && r.core.stack == m.core.stack && inv(r)
    decreases k
  {
    if k > 0 {
      assert PlainMove(m, step(m)) && inv(step(m).value);
      PlainRun(step, inv, step(m).value, t, lo, hi, k - 1);
    }
  }

  /** The machine is at the start of the loop body with the loop's own frame
      on top of `below`. */
  predicate InBody(m: Machine, inv: Machine -> bool, t: Track, p: nat, below: seq<Frame>)
  {
    && inv(m)
    && m.core.track == t
    && m.core.position == p + 1
    && |m.core.stack| == |below| + 1
    && m.core.stack[..|below|] == below
    && var top := m.core.stack[|below|];
       top.kind == LoopFrame && top.track == t && top.position == p + 1 && top.loopCount >= 0
  }

  /** One pass through the body and the loop end. */
  lemma {:induction false} OnePass(step: Machine -> Result<Machine>, inv: Machine -> bool, m: Machine, t: Track, p: nat, b: nat, n: int, below: seq<Frame>)
    requires LoopSteps(step, inv, t, p, b, n) && InBody(m, inv, t, p, below)
    ensures Iterate(step, m, b + 1).Ok?
    ensures var r := Iterate(step, m, b + 1).value;
      var count := m.core.stack[|below|].loopCount;
      && (Remaining(count, n) > 1 ==>
            InBody(r, inv, t, p, below) && r.core.stack[|below|].loopCount == Remaining(count, n) - 1)
      && (Remaining(count, n) <= 1 ==>
            r.core.track == t && r.core.position == p + b + 2 && r.core.stack == below)
  {
    PlainRun(step, inv, m, t, p + 1, p + b + 1, b);
    var atEnd := Iterate(step, m, b).value;
    IterateAdd(step, m, b, 1);
    assert EndMove(atEnd, n, step(atEnd)) && inv(step(atEnd).value);
    var stack := atEnd.core.stack;
    assert stack[..|stack| - 1] == below;
  }

  /** After one pass, the remaining steps continue from where the pass ended. */
  lemma PassThen(step: Machine -> Result<Machine>, inv: Machine -> bool, m: Machine, t: Track, p: nat, b: nat, n: int, below: seq<Frame>, rest: nat)
    requires LoopSteps(step, inv, t, p, b, n) && InBody(m, inv, t, p, below)
    ensures Iterate(step, m, b + 1).Ok?
    ensures Iterate(step, m, (b + 1) + rest) == Iterate(step, Iterate(step, m, b + 1).value, rest)
  {
    OnePass(step, inv, m, t, p, b, n, below);
    IterateAdd(step, m, b + 1, rest);
  }

  /** From the start of the body, the loop runs its remaining iterations and
      leaves, popping exactly its own frame. */
  lemma {:induction false} RunRemaining(step: Machine -> Result<Machine>, inv: Machine -> bool, m: Machine, t: Track, p: nat, b: nat, n: int, below: seq<Frame>)
    requires LoopSteps(step, inv, t, p, b, n) && InBody(m, inv, t, p, below)
    ensures var k := Remaining(m.core.stack[|below|].loopCount, n);
      && k >= 1
      && Iterate(step, m, Span(k, b)).Ok?
      && var r := Iterate(step, m, Span(k, b)).value.core;
         r.track == t && r.position == p + b + 2 && r.stack == below
    decreases Remaining(m.core.stack[|below|].loopCount, n)
  {
    var k := Remaining(m.core.stack[|below|].loopCount, n);
    OnePass(step, inv, m, t, p, b, n, below);
    PassThen(step, inv, m, t, p, b, n, below, Span(k - 1, b));
    if k > 1 {
      RunRemaining(step, inv, Iterate(step, m, b + 1).value, t, p, b, n, below);
    }
  }

  /** The j-th pass (from 0) through the body starts at the body with the
      frame's count at Remaining - j, or still unset on the first pass. */
  lemma {:induction false} PassStart(step: Machine -> Result<Machine>, inv: Machine -> bool, m: Machine, t: Track, p: nat, b: nat, n: int, below: seq<Frame>, j: nat)
    requires LoopSteps(step, inv, t, p, b, n) && InBody(m, inv, t, p, below)
    requires j < Remaining(m.core.stack[|below|].loopCount, n)
    ensures Iterate(step, m, Span(j, b)).Ok?
    ensures var r := Iterate(step, m, Span(j, b)).value;
      && InBody(r, inv, t, p, below)
      && r.core.stack[|below|].loopCount ==
           (if j == 0 then m.core.stack[|below|].loopCount
            else Remaining(m.core.stack[|below|].loopCount, n) - j)
    decreases j
  {
    if j > 0 {
      OnePass(step, inv, m, t, p, b, n, below);
      PassThen(step, inv, m, t, p, b, n, below, Span(j - 1, b));
      PassStart(step, inv, Iterate(step, m, b + 1).value, t, p, b, n, below, j - 1);
    }
  }

  /** The loop theorem for any step function that takes the loop's steps. */
  lemma {:induction false} LoopRuns(step: Machine -> Result<Machine>, inv: Machine -> bool, m: Machine, b: nat, n: int, j: nat)
    requires LoopSteps(step, inv, m.core.track, m.core.position, b, n) && inv(m)
    requires |m.core.stack| < MaxStackDepth
    requires j < Times(n)
    ensures AtPass(Iterate(step, m, 1 + Span(j, b)), m, n, j)
    ensures LeftLoop(Iterate(step, m, 1 + Span(Times(n), b)), m, b)
  {
    var t := m.core.track;
    var p := m.core.position;
    var below := m.core.stack;
    assert StartMove(m, step(m)) && inv(step(m).value);
    var entered := step(m).value;
    assert entered.core.stack[..|below|] == below;
    assert InBody(entered, inv, t, p, below);
    IterateAdd(step, m, 1, Span(j, b));
    PassStart(step, inv, entered, t, p, b, n, below, j);
    IterateAdd(step, m, 1, Span(Times(n), b));
    RunRemaining(step, inv, entered, t, p, b, n, below);
  }

  /** The loop theorem for the interpreter's own step, counted in Span. */
  lemma StepperLoopRuns(m: Machine, song: Song, b: nat, n: int, j: nat)
    requires LoopAt(m.core.track, m.core.position, b, n, song, m.mode.Playing?)
    requires m.mode.Playing? ==> Player.DrumBase(m.mode.vars) == 0
    requires |m.core.stack| < MaxStackDepth
    requires j < Times(n)
    ensures AtPass(Steps(m, song, 1 + Span(j, b)), m, n, j)
    ensures LeftLoop(Steps(m, song, 1 + Span(Times(n), b)), m, b)
  {
    var player := m.mode.Playing?;
    assert QuietFor(player)(m);
    StepperTakesLoopSteps(song, player, m.core.track, m.core.position, b, n);
    LoopRuns(Stepper(song), QuietFor(player), m, b, n, j);
  }

  /** `[ body ]n` runs its body Times(n) times: pass j (from 0) starts at
      the body after 1 + j*(b+1) steps, with the frame's count unset on the
      first pass and n - j afterwards; after 1 + Times(n)*(b+1) steps play
      is just past the loop end with the stack as it was before the loop.
      The body may hold any event but control flow; a Player must have drum
      mode off and keep it off, and call only defined platform commands. */
  lemma {:induction false} LoopBodyRunsNTimes(m: Machine, song: Song, b: nat, n: int, j: nat)
    requires LoopAt(m.core.track, m.core.position, b, n, song, m.mode.Playing?)
    requires m.mode.Playing? ==> Player.DrumBase(m.mode.vars) == 0
    requires |m.core.stack| < MaxStackDepth
    requires j < Times(n)
    ensures Steps(m, song, 1 + j * (b + 1)).Ok?
    ensures var r := Steps(m, song, 1 + j * (b + 1)).value.core;
      && r.position == m.core.position + 1 && r.track == m.core.track
      && |r.stack| == |m.core.stack| + 1
      && r.stack[|m.core.stack|].loopCount == (if j == 0 then 0 else n - j)
    ensures Steps(m, song, 1 + Times(n) * (b + 1)).Ok?
    ensures var r := Steps(m, song, 1 + Times(n) * (b + 1)).value.core;
      && r.position == m.core.position + b + 2 && r.track == m.core.track && r.stack == m.core.stack
  {
    StepperLoopRuns(m, song, b, n, j);
    SpanIsProduct(j, b);
    SpanIsProduct(Times(n), b);
  }

  /** Inside a `[ A / B ]n` loop: the frame's end position, once set, is just
      past the loop end. */
  predicate InBreakBody(m: Machine, inv: Machine -> bool, t: Track, p: nat, b: nat, below: seq<Frame>)
  {
    && InBody(m, inv, t, p, below)
    && (m.core.stack[|below|].loopCount != 0 ==> m.core.stack[|below|].endPosition == p + b + 2)
  }

  /** The first part of a pass of a `[ A / B ]n` loop: A is played, then
      the break leaves the loop on count 1 and otherwise moves on to B. */
  lemma {:induction false} ThroughA(step: Machine -> Result<Machine>, inv: Machine -> bool, m: Machine, t: Track, p: nat, a: nat, b: nat, n: int, below: seq<Frame>)
    requires a < b
    requires BreakLoopSteps(step, inv, t, p, a, b, n) && InBreakBody(m, inv, t, p, b, below)
    ensures Iterate(step, m, a).Ok?
    ensures var r := Iterate(step, m, a).value.core;
      r.position == p + a + 1 && r.track == t && r.stack == m.core.stack
    ensures Iterate(step, m, a + 1).Ok?
    ensures var count := m.core.stack[|below|].loopCount;
      var r := Iterate(step, m, a + 1).value;
      && r.core.track == t
      && (count == 1 ==> r.core.position == p + b + 2 && r.core.stack == below)
      && (count != 1 ==> r.core.position == p + a + 2 && r.core.stack == m.core.stack && inv(r))
  {
    var stack := m.core.stack;
    assert stack[..|stack| - 1] == below;
    PlainRun(step, inv, m, t, p + 1, p + a + 1, a);
    var atBreak := Iterate(step, m, a).value;
    IterateAdd(step, m, a, 1);
    assert BreakMove(atBreak, step(atBreak)) && inv(step(atBreak).value);
  }

  /** A pass of a `[ A / B ]n` loop whose break does not fire: after A, B
      and the loop end, play is back at the body or has left the loop. */
  lemma {:induction false} FullPass(step: Machine -> Result<Machine>, inv: Machine -> bool, m: Machine, t: Track, p: nat, a: nat, b: nat, n: int, below: seq<Frame>)
    requires a < b
    requires BreakLoopSteps(step, inv, t, p, a, b, n) && InBreakBody(m, inv, t, p, b, below)
    requires m.core.stack[|below|].loopCount != 1
    ensures Iterate(step, m, b + 1).Ok?
    ensures var count := m.core.stack[|below|].loopCount;
      var r := Iterate(step, m, b + 1).value;
      && (Remaining(count, n) > 1 ==>
            InBreakBody(r, inv, t, p, b, below) && r.core.stack[|below|].loopCount == Remaining(count, n) - 1)
      && (Remaining(count, n) <= 1 ==>
            r.core.track == t && r.core.position == p + b + 2 && r.core.stack == below)
  {
    ThroughA(step, inv, m, t, p, a, b, n, below);
    var afterBreak := Iterate(step, m, a + 1).value;
    PlainRun(step, inv, afterBreak, t, p + a + 2, p + b + 1, b - a - 1);
    var atEnd := Iterate(step, afterBreak, b - a - 1).value;
    IterateAdd(step, m, a + 1, b - a - 1);
    IterateAdd(step, m, b, 1);
    assert EndMove(atEnd, n, step(atEnd)) && inv(step(atEnd).value);
    var stack := m.core.stack;
    assert stack[..|stack| - 1] == below;
  }

  /** The j-th pass (from 0) of a `[ A / B ]n` loop starts at the body with
      the frame's count at Remaining - j, or still unset on the first pass;
      every pass before it went through B. */
  lemma {:induction false} BreakPassStart(step: Machine -> Result<Machine>, inv: Machine -> bool, m: Machine, t: Track, p: nat, a: nat, b: nat, n: int, below: seq<Frame>, j: nat)
    requires a < b
    requires BreakLoopSteps(step, inv, t, p, a, b, n) && InBreakBody(m, inv, t, p, b, below)
    requires j < Remaining(m.core.stack[|below|].loopCount, n)
    ensures Iterate(step, m, Span(j, b)).Ok?
    ensures var r := Iterate(step, m, Span(j, b)).value;
      && InBreakBody(r, inv, t, p, b, below)
      && r.core.stack[|below|].loopCount ==
           (if j == 0 then m.core.stack[|below|].loopCount
            else Remaining(m.core.stack[|below|].loopCount, n) - j)
    decreases j
  {
    if j > 0 {
      FullPass(step, inv, m, t, p, a, b, n, below);
      var next := Iterate(step, m, b + 1).value;
      IterateAdd(step, m, b + 1, Span(j - 1, b));
      BreakPassStart(step, inv, next, t, p, a, b, n, below, j - 1);
    }
  }

  /** Pass j of the `[ A / B ]n` loop at m's position has reached its
      LOOP_BREAK, a events into the body, with the loop's frame on top of
      m's stack holding count n - j, or still unset on the first pass. */
  predicate AtBreak(r: Result<Machine>, m: Machine, a: nat, n: int, j: nat)
  {
    && r.Ok? && r.value.core.position == m.core.position + a + 1 && r.value.core.track == m.core.track
    && |r.value.core.stack| == |m.core.stack| + 1
    && r.value.core.stack[|m.core.stack|].loopCount == (if j == 0 then 0 else n - j)
  }

  /** The step after the break of pass j: play leaves the loop on the last
      pass when n >= 2, and otherwise goes on with B. */
  predicate AfterBreak(r: Result<Machine>, m: Machine, a: nat, b: nat, n: int, j: nat)
  {
    r.Ok? && r.value.core.position == m.core.position + (if n >= 2 && j == n - 1 then b + 2 else a + 2)
  }

  /** Pass j (from 0) of the loop at m's position is at the start of its
      body, with the loop's frame on top of m's stack holding count n - j,
      or still unset on the first pass. */
  predicate AtPass(r: Result<Machine>, m: Machine, n: int, j: nat)
  {
    && r.Ok? && r.value.core.position == m.core.position + 1 && r.value.core.track == m.core.track
    && |r.value.core.stack| == |m.core.stack| + 1
    && r.value.core.stack[|m.core.stack|].loopCount == (if j == 0 then 0 else n - j)
  }

  /** Play has left the loop at m's position, whose body holds b events:
      it is just past the LOOP_END, in m's track, with m's stack. */
  predicate LeftLoop(r: Result<Machine>, m: Machine, b: nat)
  {
    r.Ok? && r.value.core.position == m.core.position + b + 2
    && r.value.core.track == m.core.track && r.value.core.stack == m.core.stack
  }

  /** LOOP_START of a `[ A / B ]n` loop enters its body with a fresh frame. */
  lemma BreakLoopEnters(step: Machine -> Result<Machine>, inv: Machine -> bool, m: Machine, a: nat, b: nat, n: int)
    requires BreakLoopSteps(step, inv, m.core.track, m.core.position, a, b, n) && inv(m)
    requires |m.core.stack| < MaxStackDepth
    ensures Iterate(step, m, 1).Ok?
    ensures var r := Iterate(step, m, 1).value;
      && InBreakBody(r, inv, m.core.track, m.core.position, b, m.core.stack)
      && r.core.stack[|m.core.stack|].loopCount == 0
  {
    assert StartMove(m, step(m)) && inv(step(m).value);
    var entered := step(m).value;
    assert entered.core.stack[..|m.core.stack|] == m.core.stack;
  }

  /** Pass j (from 0) of a `[ A / B ]n` loop starts at the body after
      1 + Span(j, b) steps, with the frame's count unset on the first pass
      and n - j afterwards. */
  lemma BreakPassReached(step: Machine -> Result<Machine>, inv: Machine -> bool, m: Machine, a: nat, b: nat, n: int, j: nat)
    requires a < b
    requires BreakLoopSteps(step, inv, m.core.track, m.core.position, a, b, n) && inv(m)
    requires |m.core.stack| < MaxStackDepth
    requires j < Times(n)
    ensures Iterate(step, m, 1 + Span(j, b)).Ok?
    ensures var r := Iterate(step, m, 1 + Span(j, b)).value;
      && InBreakBody(r, inv, m.core.track, m.core.position, b, m.core.stack)
      && r.core.stack[|m.core.stack|].loopCount == (if j == 0 then 0 else n - j)
  {
    BreakLoopEnters(step, inv, m, a, b, n);
    var entered := Iterate(step, m, 1).value;
    BreakPassStart(step, inv, entered, m.core.track, m.core.position, a, b, n, m.core.stack, j);
    IterateAdd(step, m, 1, Span(j, b));
  }

  /** The passes of a `[ A / B ]n` loop, for any step function that takes
      the loop's steps: pass j reaches the break with count n - j (unset on
      the first pass), and the break fires on the last pass when n >= 2 and
      on no other. */
  lemma {:induction false} BreakLoopPasses(step: Machine -> Result<Machine>, inv: Machine -> bool, m: Machine, a: nat, b: nat, n: int, j: nat)
    requires a < b
    requires BreakLoopSteps(step, inv, m.core.track, m.core.position, a, b, n) && inv(m)
    requires |m.core.stack| < MaxStackDepth
    requires j < Times(n)
    ensures AtBreak(Iterate(step, m, 1 + Span(j, b) + a), m, a, n, j)
    ensures AfterBreak(Iterate(step, m, 1 + Span(j, b) + a + 1), m, a, b, n, j)
  {
    BreakPassReached(step, inv, m, a, b, n, j);
    var start := Iterate(step, m, 1 + Span(j, b)).value;
    ThroughA(step, inv, start, m.core.track, m.core.position, a, b, n, m.core.stack);
    IterateAdd(step, m, 1 + Span(j, b), a);
    IterateAdd(step, m, 1 + Span(j, b), a + 1);
  }

  /** A `[ A / B ]n` loop is left after its last pass: through the break
      when n >= 2, through the loop end otherwise, with the stack as it was. */
  lemma {:induction false} BreakLoopLeaves(step: Machine -> Result<Machine>, inv: Machine -> bool, m: Machine, a: nat, b: nat, n: int)
    requires a < b
    requires BreakLoopSteps(step, inv, m.core.track, m.core.position, a, b, n) && inv(m)
    requires |m.core.stack| < MaxStackDepth
    ensures LeftLoop(Iterate(step, m, 1 + Span(Times(n) - 1, b) + (if n >= 2 then a + 1 else b + 1)), m, b)
  {
    var last := Times(n) - 1;
    BreakPassReached(step, inv, m, a, b, n, last);
    var final := Iterate(step, m, 1 + Span(last, b)).value;
    if n >= 2 {
      ThroughA(step, inv, final, m.core.track, m.core.position, a, b, n, m.core.stack);
    } else {
      FullPass(step, inv, final, m.core.track, m.core.position, a, b, n, m.core.stack);
    }
    IterateAdd(step, m, 1 + Span(last, b), if n >= 2 then a + 1 else b + 1);
  }

  /** `[ A / B ]n` runs A n times and B n - 1 times (each once when n < 2):
      pass j reaches the LOOP_BREAK after 1 + Span(j, b) + a steps (that is
      1 + j*(b+1) + a, by SpanIsProduct) with the frame's count unset on the
      first pass and n - j afterwards, and the step after it enters B on
      every pass but the last when n >= 2. A and B may hold any event but
      control flow, with the same conditions on a Player as for
      LoopBodyRunsNTimes. */
  lemma {:induction false} BreakLoopRunsNTimes(m: Machine, song: Song, a: nat, b: nat, n: int, j: nat)
    requires BreakLoopAt(m.core.track, m.core.position, a, b, n, song, m.mode.Playing?)
    requires m.mode.Playing? ==> Player.DrumBase(m.mode.vars) == 0
    requires |m.core.stack| < MaxStackDepth
    requires j < Times(n)
    ensures AtBreak(Steps(m, song, 1 + Span(j, b) + a), m, a, n, j)
    ensures AfterBreak(Steps(m, song, 1 + Span(j, b) + a + 1), m, a, b, n, j)
  {
    var player := m.mode.Playing?;
    assert QuietFor(player)(m);
    StepperTakesBreakLoopSteps(song, player, m.core.track, m.core.position, a, b, n);
    BreakLoopPasses(Stepper(song), QuietFor(player), m, a, b, n, j);
  }

  /** After its last pass, `[ A / B ]n` leaves play just past the loop end
      with the stack as it was before the loop: after 1 + Span(n-1, b) + a + 1
      steps (1 + (n-1)*(b+1) + a + 1) through the break when n >= 2, after
      1 + (b+1) steps otherwise. */
  lemma {:induction false} BreakLoopLeavesAfterNTimes(m: Machine, song: Song, a: nat, b: nat, n: int)
    requires BreakLoopAt(m.core.track, m.core.position, a, b, n, song, m.mode.Playing?)
    requires m.mode.Playing? ==> Player.DrumBase(m.mode.vars) == 0
    requires |m.core.stack| < MaxStackDepth
    ensures LeftLoop(Steps(m, song, 1 + Span(Times(n) - 1, b) + (if n >= 2 then a + 1 else b + 1)), m, b)
  {
    var player := m.mode.Playing?;
    assert QuietFor(player)(m);
    StepperTakesBreakLoopSteps(song, player, m.core.track, m.core.position, a, b, n);
    BreakLoopLeaves(Stepper(song), QuietFor(player), m, a, b, n);
  }
}
