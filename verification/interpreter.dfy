/** step_event: one step of the control-flow interpreter, with the hooks of
    either a Player or a Track_Validator. */
module Interpreter {
  import opened Events
  import opened Errors
  import opened Stack
  import opened BasicPlayer
  import Player
  import Validator

  /** Which subclass is running: its hooks and its own fields. */
  datatype Mode = Playing(vars: Player.Vars) | Validating(marks: Validator.Marks)

  datatype Machine = Machine(core: Core, mode: Mode)

  /** A Player with its skip flag set: events are handled but not written. */
  predicate Skipping(m: Machine)
  {
    m.mode.Playing? && m.mode.vars.skip
  }

  /** Notes written so far (a validator writes none). */
  function NotesWritten(m: Machine): nat
  {
    if m.mode.Playing? then m.mode.vars.noteCount else 0
  }

  /** event_hook of the running subclass. */
  function EventHook(m: Machine, song: Song): (r: Result<Machine>)
    ensures r.Ok? ==> r.value.mode.Playing? == m.mode.Playing?
    ensures r.Ok? ==> r.value.core.playTime == m.core.playTime && SameLoopState(m.core, r.value.core)
    ensures r.Ok? && |m.core.stack| <= MaxStackDepth ==> |r.value.core.stack| <= MaxStackDepth
    ensures m.mode.Validating? ==> r.Ok? && r.value.core == m.core
    ensures r.Ok? ==> Skipping(r.value) == Skipping(m)
    ensures r.Ok? && Skipping(m) ==> NotesWritten(r.value) == NotesWritten(m)
    ensures m.core.event.kind != Note && m.core.event.kind != Platform ==> r.Ok? && r.value.core == m.core
    ensures r.Ok? && m.mode.Playing? ==>
              Player.DrumBase(r.value.mode.vars) ==
                (if m.core.event.kind == DrumMode then ToInt16(m.core.event.param) else Player.DrumBase(m.mode.vars))
  {
    match m.mode
    case Playing(v) =>
      var p :- Player.EventHook(m.core, v, song);
      Ok(Machine(p.core, Playing(p.vars)))
    case Validating(w) =>
      Ok(Machine(m.core, Validating(Validator.EventHook(m.core, w))))
  }

  /** loop_hook: a Player restarts at the segno, a validator never does. */
  predicate LoopHook(m: Machine)
  {
    m.mode.Playing?
  }

  /** end_hook of the running subclass. */
  function EndHook(m: Machine): (r: Machine)
    ensures r.mode.Playing? == m.mode.Playing?
    ensures r.core == m.core.(event := r.core.event)
    ensures Skipping(r) == Skipping(m) && NotesWritten(r) == NotesWritten(m)
  {
    match m.mode
    case Playing(v) =>
      var p := Player.EndHook(m.core, v);
      Machine(p.core, Playing(p.vars))
    case Validating(w) =>
      Machine(m.core, Validating(Validator.EndHook(m.core, w)))
  }

  /** The event just read restarts play at the segno. */
  predicate AtRestart(m: Machine)
  {
    m.core.event.kind == End && |m.core.stack| == 0 && m.core.loopPosition.Some? && LoopHook(m)
  }

  /** The step about to be taken restarts play at the segno: END with
      nothing on the stack, a segno seen, and a subclass that loops. */
  predicate Restarts(m: Machine)
  {
    && CurrentEvent(m.core).kind == End
    && |m.core.stack| == 0
    && m.core.loopPosition.Some?
    && LoopHook(m)
  }

  /** The second half of step_event: act on the event just read. Where the
      source pops a frame whose kind it has just checked, the pop cannot fail
      and is written as a plain removal of the top. */
  function Dispatch(m: Machine, song: Song): (r: Result<Machine>)
    ensures r.Ok? ==> r.value.mode.Playing? == m.mode.Playing?
    ensures r.Ok? ==> r.value.core.playTime == m.core.playTime
    ensures r.Ok? ==> r.value.core.loopResetCount == m.core.loopResetCount
    ensures r.Ok? ==> r.value.core.loopCount == m.core.loopCount + (if AtRestart(m) then 1 else 0)
    ensures r.Ok? ==> Skipping(r.value) == Skipping(m)
    ensures r.Ok? && Skipping(m) ==> NotesWritten(r.value) == NotesWritten(m)
    ensures r.Ok? && |m.core.stack| <= MaxStackDepth ==> |r.value.core.stack| <= MaxStackDepth
  {
    var c := m.core;
    var e := c.event;
    var ref := c.reference;
    match e.kind
    case LoopStart =>
      var pushed :- Push(c.stack, Frame(LoopFrame, c.track, c.position, 0, 0), ref);
      Ok(m.(core := c.(stack := pushed)))
    case LoopBreak =>
      var top :- Top(c.stack, LoopFrame, ref);
      if top.loopCount == 1 then
        Ok(m.(core := c.(position := top.endPosition, stack := c.stack[..|c.stack| - 1])))
      else Ok(m)
    case LoopEnd =>
      var top :- Top(c.stack, LoopFrame, ref);
      var count := (if top.loopCount == 0 then e.param else top.loopCount) - 1;
      if count > 0 then
        var updated := top.(endPosition := c.position, loopCount := count);
        Ok(m.(core := c.(stack := c.stack[|c.stack| - 1 := updated], position := top.position)))
      else
        Ok(m.(core := c.(stack := c.stack[..|c.stack| - 1])))
    case Segno =>
      EventHook(m.(core := c.(loopPosition := Some(c.position), loopResetPosition := Some(c.position))), song)
    case Jump =>
      if e.param !in song.tracks then Err(InputError(JumpDestinationMissing, ref))
      else
        // A full stack inside the source's try block is reported as a missing destination.
        (match Push(c.stack, Frame(JumpFrame, c.track, c.position, 0, 0), ref)
         case Err(_) => Err(InputError(JumpDestinationMissing, ref))
         case Ok(pushed) => Ok(m.(core := c.(stack := pushed, track := song.tracks[e.param], position := 0))))
    case End =>
      if |c.stack| > 0 then
        var top :- Top(c.stack, JumpFrame, ref);
        Ok(m.(core := c.(track := top.track, position := top.position, stack := c.stack[..|c.stack| - 1])))
      else if c.loopPosition.Some? && LoopHook(m) then
        Ok(m.(core := c.(position := c.loopPosition.value, loopCount := c.loopCount + 1)))
      else
        Ok(EndHook(m.(core := c.(enabled := false))))
    case _ => EventHook(m, song)
  }

  /** step_event. */
  function StepEvent(m: Machine, song: Song): (r: Result<Machine>)
    ensures r.Ok? ==> r.value.mode.Playing? == m.mode.Playing?
    ensures r.Ok? ==> r.value.core.playTime == m.core.playTime + m.core.onTime + m.core.offTime
    ensures r.Ok? ==> r.value.core.loopCount == m.core.loopCount + (if Restarts(m) then 1 else 0)
    ensures r.Ok? && CountsOrdered(m.core) ==> CountsOrdered(r.value.core)
    ensures r.Ok? ==> Skipping(r.value) == Skipping(m)
    ensures r.Ok? && Skipping(m) ==> NotesWritten(r.value) == NotesWritten(m)
    ensures r.Ok? && |m.core.stack| <= MaxStackDepth ==> |r.value.core.stack| <= MaxStackDepth
  {
    Dispatch(m.(core := Begin(m.core)), song)
  }

  /** Two Players in the same interpreter state with the same tables; only
      their skip flags and counters may differ. */
  predicate SameTracked(m: Machine, n: Machine)
  {
    m.core == n.core && m.mode.Playing? && n.mode.Playing? && Player.SameTables(m.mode.vars, n.mode.vars)
  }

  /** The second half of step_event reads neither the skip flag nor the
      counters. */
  lemma DispatchIgnoresWrites(m: Machine, n: Machine, song: Song)
    requires SameTracked(m, n)
    ensures Dispatch(m, song).Err? ==> Dispatch(n, song) == Err(Dispatch(m, song).error)
    ensures Dispatch(m, song).Ok? ==> Dispatch(n, song).Ok? && SameTracked(Dispatch(m, song).value, Dispatch(n, song).value)
  {
    var k := m.core.event.kind;
    if k == End {
      EndIgnoresWrites(m, n, song);
    } else if k in {LoopStart, LoopBreak, LoopEnd, Jump} {
      LoopOrJumpIgnoresWrites(m, n, song);
    } else if k == Segno {
      SegnoIgnoresWrites(m, n, song);
    } else {
      HookedEventIgnoresWrites(m, n, song);
    }
  }

  /** SEGNO marks the restart point and calls event_hook. */
  lemma SegnoIgnoresWrites(m: Machine, n: Machine, song: Song)
    requires SameTracked(m, n) && m.core.event.kind == Segno
    ensures Dispatch(m, song).Err? ==> Dispatch(n, song) == Err(Dispatch(m, song).error)
    ensures Dispatch(m, song).Ok? ==> Dispatch(n, song).Ok? && SameTracked(Dispatch(m, song).value, Dispatch(n, song).value)
  {
    var c := m.core;
    Player.EventHookIgnoresWrites(c.(loopPosition := Some(c.position), loopResetPosition := Some(c.position)),
                                  m.mode.vars, n.mode.vars, song);
  }

  /** The events left to event_hook. */
  lemma HookedEventIgnoresWrites(m: Machine, n: Machine, song: Song)
    requires SameTracked(m, n) && m.core.event.kind !in {End, LoopStart, LoopBreak, LoopEnd, Jump, Segno}
    ensures Dispatch(m, song).Err? ==> Dispatch(n, song) == Err(Dispatch(m, song).error)
    ensures Dispatch(m, song).Ok? ==> Dispatch(n, song).Ok? && SameTracked(Dispatch(m, song).value, Dispatch(n, song).value)
  {
    Player.EventHookIgnoresWrites(m.core, m.mode.vars, n.mode.vars, song);
  }

  /** END: the jump return, the restart and the end hook. */
  lemma EndIgnoresWrites(m: Machine, n: Machine, song: Song)
    requires SameTracked(m, n) && m.core.event.kind == End
    ensures Dispatch(m, song).Err? ==> Dispatch(n, song) == Err(Dispatch(m, song).error)
    ensures Dispatch(m, song).Ok? ==> Dispatch(n, song).Ok? && SameTracked(Dispatch(m, song).value, Dispatch(n, song).value)
  {
  }

  /** The loop events and JUMP touch only the interpreter state. */
  lemma LoopOrJumpIgnoresWrites(m: Machine, n: Machine, song: Song)
    requires SameTracked(m, n) && m.core.event.kind in {LoopStart, LoopBreak, LoopEnd, Jump}
    ensures Dispatch(m, song).Err? ==> Dispatch(n, song) == Err(Dispatch(m, song).error)
    ensures Dispatch(m, song).Ok? ==> Dispatch(n, song).Ok? && SameTracked(Dispatch(m, song).value, Dispatch(n, song).value)
  {
  }

  /** step_event reads neither the skip flag nor the counters: two Players
      that differ only in those fail alike or stay alike. */
  lemma StepIgnoresWrites(m: Machine, n: Machine, song: Song)
    requires SameTracked(m, n)
    ensures StepEvent(m, song).Err? ==> StepEvent(n, song) == Err(StepEvent(m, song).error)
    ensures StepEvent(m, song).Ok? ==> StepEvent(n, song).Ok? && SameTracked(StepEvent(m, song).value, StepEvent(n, song).value)
  {
    DispatchIgnoresWrites(m.(core := Begin(m.core)), n.(core := Begin(n.core)), song);
  }
}
