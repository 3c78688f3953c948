# ctrmml player core in Dafny

This project models the event-stream interpreter of ctrmml, an MML
compiler and player: `src/player.cpp`. It has three layers.

* `Basic_Player` is the control-flow machine. It walks a track's event
  sequence and keeps a bounded stack of tagged frames (loop, jump,
  drum-mode). It runs `[ ]n` loops with loop breaks, jumps into other
  tracks, and restarts at the segno. It also counts those restarts and
  confirms the count.
* `Player` is the musical layer on top. It keeps a 16-bit state table per
  channel command with a 32-bit "changed" mask, including the
  coarse-volume bit (30) and the BPM bit (31). It also handles drum-mode
  subroutine calls, checks platform commands, counts notes and rests, and
  keeps the clock in `play_tick` and `skip_ticks`.
* `Track_Validator` plays a track to its end without looping and measures
  the length of its loop section. `Song_Validator` does that for every
  track of a song.

The model is functional. A player is an immutable record, and every
operation is a pure function returning `Result`. A thrown `InputError`
becomes `Err(InputError(kind, reference))`, where the kind stands for the
message text.

The two subclasses differ only in their virtual hooks, so a `Mode` value
selects them: `Playing(vars)` or `Validating(marks)`. `Interpreter.StepEvent`
is `step_event`, and it dispatches to the hooks of the running mode.

The source's `while` loops are `play_tick`'s stepping, `skip_ticks`, and the
validator's run to the end. None of them has a termination argument in the
source. Here each one takes a `fuel` argument that pays for one step at a
time, and returns `Err(NoProgress)` if the fuel runs out.

Modules, one per component:

| file | module | models |
|---|---|---|
| events.dfy | `Events` | event kinds and codes, int16/uint32 conversions, events, tracks, songs |
| errors.dfy | `Errors` | the `InputError` message kinds, `Result`, `Option` |
| stack.dfy | `Stack` | `Player_Stack` frames, `stack_push` / `stack_top` / `stack_pop`, `stack_underflow` |
| basic_player.dfy | `BasicPlayer` | `Basic_Player`'s fields, loop counters, the first half of `step_event` |
| player.dfy | `Player` | `Player`'s fields, `handle_event`, `handle_drum_mode`, flag and variable getters, hooks |
| validator.dfy | `Validator` | `Track_Validator`'s hooks and `get_loop_length` |
| interpreter.dfy | `Interpreter` | `step_event` with either subclass's hooks |
| control_flow.dfy | `ControlFlow` | properties of `step_event` over one and many steps |
| playback.dfy | `Playback` | `play_tick` and `skip_ticks` |
| validation.dfy | `Validation` | the `Track_Validator` and `Song_Validator` constructors |

## Model

| member | source | states |
|---|---|---|
| Events.SlotInjective | src/player.cpp:240-243 | Two distinct channel commands never share a state slot or a mask bit. |
| Stack.UnderflowInjective | src/player.cpp:33-43 | Each frame kind has its own underflow message: loop, jump and drum-mode frames are reported differently. |
| Stack.Push | src/player.cpp:46-52 | A push succeeds exactly when fewer than 10 frames are held, and then appends the frame on top. On a full stack it fails with "stack overflow". |
| Stack.Top | src/player.cpp:55-63 | Returns the top frame only if its kind is the one requested. An empty stack is reported for the requested kind; a mismatched top is reported for the top's own kind. |
| Stack.Pop | src/player.cpp:66-73 | On a non-empty stack, pops the top frame if its kind matches, and otherwise reports the top's kind. |
| Stack.TopKind | src/player.cpp:79-84 | The kind of the top frame, or none for an empty stack. |
| Stack.PushPopRoundTrip | src/player.cpp:46-73 | A pop right after a push returns the pushed frame and the original stack. |
| BasicPlayer.Init | src/player.cpp:10-25 | A new player is on the given track, enabled at position 0, with an empty stack, no segno or confirmation point, zero counters and zero time. |
| BasicPlayer.GetLoopCount | src/player.cpp:99-102 | The reported loop count is the smaller of the restart count and the confirmed count. |
| BasicPlayer.ReportedCountIsConfirmed | src/player.cpp:99-102 | While the confirmed count does not exceed the restart count, the reported count is the confirmed one. |
| BasicPlayer.ResetLoopCount | src/player.cpp:104-110 | Both counts become 0. The confirmation point moves to one before the current position, or to 0 at the start of the track. Nothing else changes. |
| BasicPlayer.CurrentEvent | src/player.cpp:132-144 | The event at the current position, or a synthesized END carrying the current reference once past the end of the track. |
| BasicPlayer.Begin | src/player.cpp:123-148 | Pending on and off time is added to the play time. The restart count is confirmed when the confirmation point is reached. The position always advances, and the event's timing and reference are taken over. |
| BasicPlayer.BeginKeepsCountsOrdered | src/player.cpp:129-130 | Confirming a count never makes the confirmed count exceed the restart count. |
| Player.InitVars | src/player.cpp:228-238 | A new Player has the skip flag it was given, zero note and rest counters, empty track and platform masks, and all-zero track and platform state tables. |
| Player.HandleDrumMode | src/player.cpp:246-278 | Without a drum-mode frame on top: it succeeds exactly when track base+note exists and the stack has room, and otherwise fails with a drum-mode error naming that track, base and note. With the frame on top: it always succeeds and removes exactly that frame. Play time and loop state are untouched. |
| Player.HandleEvent | src/player.cpp:279-333 | Any event other than NOTE leaves the interpreter state unchanged. Every event except NOTE and PLATFORM succeeds. No event changes the counters, the skip flag, play time or loop state. |
| Player.GenericCommand | src/player.cpp:320-331 | Events that are not channel commands change nothing; no event changes the skip flag or the counters. |
| Player.WriteEvent | src/player.cpp:424-431 | Counts one note for NOTE and one rest for REST or END, and changes nothing else. |
| Player.EventHook | src/player.cpp:395-400 | While skipping, no note or rest is counted. Otherwise the handled event is written: one note is counted if it is still a NOTE (a drum call turns it into NOP), and one rest for REST or END. Any event other than NOTE leaves the interpreter state unchanged, and only DRUM_MODE changes the drum-mode base. |
| Player.EndHook | src/player.cpp:407-411 | The current event becomes END, and exactly one rest is counted. |
| Player.GetUpdateFlag | src/player.cpp:336-341 | Succeeds exactly for channel commands, and otherwise fails with "unsupported event type". On success it reads true exactly when the command's bit is set in the track mask. |
| Player.ClearUpdateFlag | src/player.cpp:344-349 | Succeeds exactly for channel commands and leaves the state table alone; otherwise it fails with "unsupported event type". |
| Player.GetPlatformFlag | src/player.cpp:352-357 | An index up to 31 reads true exactly when its bit is set in the platform mask; an index above 31 reads as false. |
| Player.ClearPlatformFlag | src/player.cpp:360-365 | An index above 31 changes nothing. No call touches the state tables or the track mask. |
| Player.GetPlatformVar | src/player.cpp:380-385 | Returns platform variable t for t up to 31, and 0 above that. |
| Player.GetVar | src/player.cpp:388-393 | Succeeds exactly for channel commands, and otherwise fails with "unsupported event type". On success it returns the command's entry in the track state table. |
| Player.VolSetsCoarseVolume | src/player.cpp:302-309 | VOL sets the fine volume to the parameter alone and sets the fine-volume and coarse-volume bits. No other slot changes. |
| Player.VolRelAddsCoarseVolume | src/player.cpp:302-309 | VOL_REL adds the parameter to the fine volume and sets the fine-volume and coarse-volume bits. No other slot changes. |
| Player.VolFineRelSelectsFineVolume | src/player.cpp:310-314 | VOL_FINE_REL adds to the fine volume, sets the fine-volume bit and clears the coarse-volume bit. |
| Player.TempoBpmSetsBpm | src/player.cpp:315-319 | TEMPO_BPM stores the tempo and sets both the tempo bit and the BPM bit. |
| Player.TransposeRelAdds | src/player.cpp:298-301 | TRANSPOSE_REL adds to the transpose slot and marks only that slot changed. |
| Player.GenericCommandKeepsModeBits | src/player.cpp:320-331 | Any other channel command stores its parameter in its own slot and marks only that slot. The coarse-volume and BPM bits are left as they were. |
| Player.CommandReadsBack | src/player.cpp:298-393 | After any channel command, reading its target slot through the getters gives the flag set and the value stored: the parameter for a setting command, the old value plus the parameter for VOL_REL, VOL_FINE_REL and TRANSPOSE_REL, wrapped to 16 bits. VOL and VOL_REL target the fine volume and TEMPO_BPM the tempo. |
| Player.OnlyDrumModeSetsDrumBase | src/player.cpp:279-333 | Handling an event sets the drum-mode base to the parameter on DRUM_MODE and keeps it for every other event. |
| Player.ChannelCommandKeepsDrumBase | src/player.cpp:298-331 | Every channel command other than DRUM_MODE succeeds and keeps the drum-mode base. |
| Player.HandleEventIgnoresWrites | src/player.cpp:279-333 | Handling an event never reads the skip flag or the note and rest counters: two players that differ only there get the same outcome, and the same interpreter state and tables. |
| Player.EventHookIgnoresWrites | src/player.cpp:395-400 | The same for the hook: the skip flag and the counters decide only what is counted, never the outcome, the interpreter state or the tables. |
| Player.PlatformCommandLookup | src/player.cpp:287-297 | PLATFORM succeeds exactly when the command is defined, and then changes nothing; otherwise it fails with "platform command not defined". |
| Player.ClearThenGetUpdateFlag | src/player.cpp:336-349 | Clearing one update flag clears that flag and leaves every other flag as it was. |
| Player.ClearThenGetPlatformFlag | src/player.cpp:352-365 | Clearing one platform flag clears that flag and leaves every other flag as it was. |
| Player.DrumModeEnter | src/player.cpp:248-269 | A drum-mode note pushes a DRUM_MODE frame holding the caller's track, position, on time and off time. It then starts track base+note at position 0 with no pending time, and turns the event into NOP. |
| Player.DrumModeRoundTrip | src/player.cpp:246-278 | Whatever runs in between, the next drum-mode note with the frame on top restores the caller's on time, off time, position, track and stack exactly. |
| Validator.EventHook | src/player.cpp:504-509 | A SEGNO records the current play time, and no other event changes the marks. |
| Validator.EndHook | src/player.cpp:517-521 | After a segno, the loop time becomes the play time minus the segno time; without one, nothing changes. |
| Validator.GetLoopLength | src/player.cpp:527-530 | The loop time, read as an unsigned 32-bit number. |
| Interpreter.EventHook | src/player.cpp:395-400 | The running subclass's hook: the Player handles the event, while the validator never changes the interpreter state. In a Player only DRUM_MODE changes the drum-mode base. |
| Interpreter.EndHook | src/player.cpp:407-411 | The running subclass's end hook. It changes only the current event and its own fields, and never the skip flag or the note count. |
| Interpreter.Dispatch | src/player.cpp:148-219 | Handling one event keeps the play time and the confirmed count. The restart count grows by one exactly on END with an empty stack, a segno seen and a looping subclass. It also keeps the mode, the skip flag, the stack bound, and the note count while skipping. |
| Interpreter.StepEvent | src/player.cpp:123-220 | One step adds exactly the pending on and off time to the play time. The restart count grows by one exactly when the step restarts at the segno, and the confirmed count never overtakes it. The stack bound holds, and no note is written while skipping. |
| Interpreter.StepIgnoresWrites | src/player.cpp:123-220 | One step of two Players that differ only in the skip flag and the counters fails for both or for neither, and on success leaves them still differing only there. |
| ControlFlow.DepthNeverExceedsLimit | src/player.cpp:46-52 | However many steps are taken, the stack never holds more than 10 frames. |
| ControlFlow.CountsStayOrdered | src/player.cpp:129-130 | However many steps are taken, the confirmed count never exceeds the restart count. |
| ControlFlow.LoopStartOverflows | src/player.cpp:150-152 | LOOP_START on a full stack fails with "stack overflow". |
| ControlFlow.LoopStartPushes | src/player.cpp:150-152 | LOOP_START pushes a loop frame with an unset count that returns to the first event of the body. |
| ControlFlow.EndWithOpenFrameFails | src/player.cpp:194-200 | END with a loop frame on top fails as an unterminated loop. With a drum-mode frame on top it fails as a drum routine without a note. |
| ControlFlow.LoopEndNeedsLoopFrame | src/player.cpp:153-173 | LOOP_END and LOOP_BREAK fail without a loop frame on top: an empty stack reads as an unterminated loop, and a jump frame as an unexpected loop end. |
| ControlFlow.LoopEndStep | src/player.cpp:162-173 | LOOP_END takes an unset count from its parameter, then decrements it. While the count stays positive play goes back to the body; otherwise the frame is popped. |
| ControlFlow.LoopBreakStep | src/player.cpp:153-161 | LOOP_BREAK jumps to the loop's end and pops the frame only on count 1. Otherwise nothing but the position changes. |
| ControlFlow.JumpToMissingTrackFails | src/player.cpp:179-193 | JUMP to an undefined track fails with "jump destination doesn't exist". |
| ControlFlow.JumpOnFullStackFails | src/player.cpp:179-193 | JUMP on a full stack fails with the same message: the overflow is caught and reported again. |
| ControlFlow.JumpEnters | src/player.cpp:179-193 | JUMP pushes a jump frame holding the caller's track and return position, and starts the target track at position 0. |
| ControlFlow.JumpReturnRoundTrip | src/player.cpp:179-200 | When the jumped-to track ends with the jump frame on top, play resumes in the caller's track just after the JUMP, with the caller's stack. |
| ControlFlow.SegnoMarksRestart | src/player.cpp:174-178 | SEGNO makes the next position both the restart point and the confirmation point. |
| ControlFlow.RestartGoesToSegno | src/player.cpp:201-207 | END with an empty stack, after a segno, in a Player: play goes back to the segno and the restart count grows by one. |
| ControlFlow.EndStopsUnlessRestart | src/player.cpp:201-214 | END with an empty stack disables play unless it restarts. A validator never restarts. |
| ControlFlow.BodyStep | src/player.cpp:123-219 | Any event but LOOP_START, LOOP_BREAK, LOOP_END, JUMP and END, SEGNO included, succeeds and only advances the position by one. For a Player this needs drum mode off, a defined platform command and a DRUM_MODE that switches drum mode off; drum mode then stays off. |
| ControlFlow.StepperTakesLoopSteps | src/player.cpp:150-173 | On the events of a `[ body ]n` loop whose body holds no control flow, step_event does what the loop theorem assumes of a step. |
| ControlFlow.StepperTakesBreakLoopSteps | src/player.cpp:150-173 | The same for a `[ A / B ]n` loop: LOOP_START pushes, A and B only advance, LOOP_BREAK and LOOP_END act on the loop frame. |
| ControlFlow.RunRemaining | src/player.cpp:162-173 | From the start of the body, the loop runs its remaining passes and leaves just past its LOOP_END, popping exactly its own frame. |
| ControlFlow.PassStart | src/player.cpp:162-173 | Pass j starts at the body with the frame's count at the remaining passes minus j. |
| ControlFlow.LoopRuns | src/player.cpp:150-173 | For any step that follows the loop's rules, the body runs Times(n) passes and play then continues after the loop with the original stack. |
| ControlFlow.StepperLoopRuns | src/player.cpp:150-173 | The loop theorem for step_event itself: pass j starts at the body after 1 + Span(j, b) steps, and the loop is left after 1 + Span(Times(n), b) steps. |
| ControlFlow.LoopBodyRunsNTimes | src/player.cpp:150-173 | `[ body ]n` runs its body n times (once if n < 1): pass j starts at the body after 1 + j(b+1) steps with the frame's count unset on the first pass and n - j afterwards, so count 1, which a LOOP_BREAK acts on, is seen on the last pass and no other, and never when n < 2. After 1 + Times(n)(b+1) steps play continues after the loop with the original stack. The body may hold any event but control flow, subject to the Player conditions of ControlFlow.BodyStep. |
| ControlFlow.ThroughA | src/player.cpp:153-161 | In a `[ A / B ]n` pass, A is played through; the LOOP_BREAK then leaves the loop with the frame popped on count 1, and otherwise moves on into B. |
| ControlFlow.FullPass | src/player.cpp:153-173 | A `[ A / B ]n` pass whose break does not fire plays A and B and reaches the LOOP_END, which starts the next pass with the count one lower or leaves the loop. |
| ControlFlow.BreakPassStart | src/player.cpp:153-173 | Pass j of a `[ A / B ]n` loop starts at the body with the frame's count at the remaining passes minus j. |
| ControlFlow.BreakLoopPasses | src/player.cpp:150-173 | For any step that follows the loop's rules, pass j reaches the break with count n - j (unset on the first pass), and the break fires on the last pass when n >= 2 and on no other. |
| ControlFlow.BreakLoopLeaves | src/player.cpp:150-173 | For any step that follows the loop's rules, a `[ A / B ]n` loop is left after its last pass, through the break when n >= 2 and through the LOOP_END otherwise, with the original stack. |
| ControlFlow.BreakLoopRunsNTimes | src/player.cpp:150-173 | `[ A / B ]n` runs A n times and B n - 1 times (each once when n < 2): pass j reaches its LOOP_BREAK after 1 + Span(j, b) + a steps, which is 1 + j(b+1) + a by ControlFlow.SpanIsProduct, with the count unset on the first pass and n - j afterwards; the next step enters B on every pass but the last when n >= 2, and leaves the loop on that last one. |
| ControlFlow.BreakLoopLeavesAfterNTimes | src/player.cpp:150-173 | After its last pass `[ A / B ]n` leaves play just past the LOOP_END with the original stack: through the break when n >= 2, through the LOOP_END after a single pass otherwise. |
| ControlFlow.SpanIsProduct | src/player.cpp:162-173 | k passes through a body of b events and its LOOP_END take exactly k(b+1) steps. |
| Playback.Step | src/player.cpp:126-128 | A step adds the pending time to the clock and keeps the skip flag. |
| Playback.KeyTick | src/player.cpp:471-484 | One tick of on time, or else of off time, elapses. When the on time runs out with off time left, exactly one REST is written. |
| Playback.Fill | src/player.cpp:485-488 | Stepping while idle takes no time. Afterwards the player is stopped or has time pending. |
| Playback.PlayTick | src/player.cpp:469-490 | A tick adds exactly 1 to the play time and leaves the player stopped or with time pending. |
| Playback.PlayTicks | src/player.cpp:469-490 | n ticks add exactly n to the play time. |
| Playback.SkipLoop | src/player.cpp:441-465 | The skip loop adds exactly the skipped ticks to the play time, and writes no note while the skip flag is set. |
| Playback.SkipTicks | src/player.cpp:434-466 | Skipping adds exactly the given ticks to the play time and writes no note. A stopped player changes in nothing else; a running one has its skip flag clear afterwards. |
| Playback.FixedSkipTicks | src/player.cpp:434-466 | The intended skip: it plays the ticks with the skip flag set and then clears the flag. It adds exactly the ticks to the play time and writes no note. |
| Playback.PlayTicksIgnoresWrites | src/player.cpp:469-490 | Ticks of two players that differ only in the skip flag and the counters fail for both or for neither, and otherwise leave them still differing only there. |
| Playback.SkipMatchesPlay | src/player.cpp:434-490 | From any player, the intended skip and n ticks of play fail together and otherwise reach the same player, apart from the skip flag and the note and rest counters. |
| Playback.SkipOnGap | src/player.cpp:434-466 | On the gap track at its first note with 2 ticks of on time, skip_ticks as written stops, idle, on the zero-length VOL. |
| Playback.PlayOnGap | src/player.cpp:469-490 | On the same player, two ticks of play step past the VOL to the second note, with its 4 ticks of on time. |
| Playback.SkipTicksStopsOnGap | src/player.cpp:434-490 | skip_ticks as written and play_tick disagree on the gap track, while the intended skip agrees with play_tick there. |
| Playback.SpinningNeverFills | src/player.cpp:485-488 | A player on a segno section holding no timed event never gets time pending: play_tick's stepping loop runs out of any fuel. |
| Playback.SegnoWithoutTimeNeverPlays | src/player.cpp:201-207 | On the track `[SEGNO, VOL 5]`, END restarts at the segno forever without a timed event: play_tick and the intended skip both run out of any fuel. |
| Playback.TickWithinNote | src/player.cpp:469-490 | A tick that does not end the current note only counts on time down by one and the clock up by one. |
| Playback.PlayWithinNote | src/player.cpp:469-490 | While the current note lasts, k ticks of play only count on time down and the clock up. |
| Playback.SkipMatchesPlayWithinNote | src/player.cpp:434-490 | While the current note lasts, skipping n ticks and playing n ticks give the same player. |
| Playback.PlayWhenStopped | src/player.cpp:469-490 | Once stopped with nothing pending, ticks only advance the clock. |
| Playback.SkipMatchesPlayWhenStopped | src/player.cpp:434-490 | Once stopped with nothing pending, skipping and playing give the same player. |
| Validation.Step | src/player.cpp:500-501 | A validator's step adds the pending time to the clock. |
| Validation.StepKeepsMeasured | src/player.cpp:504-521 | While running, the loop time stays 0 and any segno lies in the past. When play stops, the loop time is the play time minus the segno time, or 0 without a segno. |
| Validation.Run | src/player.cpp:499-501 | Running to the end leaves the validator stopped, with its loop time equal to the time from the segno to the end. |
| Validation.Start | src/player.cpp:496-497 | A new validator is running and has seen no segno. |
| Validation.ValidateTrack | src/player.cpp:496-530 | A validated track has stopped. Its loop length is 0 without a segno; otherwise it is the play time at the end minus the play time at the segno. |
| Validation.ValidateAll | src/player.cpp:536-542 | Tracks are validated in ascending id order. The result holds one validator per track exactly when every track validates; otherwise it is the error of the lowest-numbered failing track. |
| Validation.ValidateSong | src/player.cpp:536-542 | A song validates exactly when each of its tracks does, with one finished validator per track id. Otherwise the result is the error of the lowest-numbered failing track. |

## Left out

- Event numbering: event.h is not part of this model. The event kinds are numbered NOTE=0 … NOP=11 and CHANNEL_CMD=12 … TEMPO=26, with CMD_COUNT=27, which assumes the order the source's switch statements suggest. Under this numbering, the generic branch's comparisons of the slot offset with the absolute codes of VOL_FINE and TEMPO (src/player.cpp:326-329) never match. The model keeps those comparisons as written.
- State table width: player.h is not part of this model. Writes to `track_state` wrap to 16 bits (`ToInt16`), because `get_var` returns `int16_t`.
- `InputError` is assumed to derive from `std::exception`. So a stack overflow raised inside the JUMP and drum-mode `try` blocks is caught and reported as "jump destination doesn't exist" or as the drum-mode error. The model follows the code here; a plain reading of the messages would expect "stack overflow".
- `parse_platform_event` and the contents of platform-command tags: the base class returns 0. The song holds only the set of defined command ids, and PLATFORM checks membership.
- The per-kind `stack_depth[]` counter (src/player.cpp:50, 89) is left out. It is never decremented, so it is not a depth.
- LOOP_BREAK writes the loop's end position into the source track's event (src/player.cpp:157). This is an aid for export that never affects playback, so tracks stay immutable here.
- The "unknown stack type" branch of `stack_underflow` cannot be reached, because the model has only three frame kinds.
- `LOOP_END` stores the end position in the frame even when it then pops it. The model stores it only when the frame stays, since a popped frame is never read.
- `play_time` is an unbounded natural number; the source's 32-bit wrap-around is not modelled. On time and off time are 32-bit (`Ticks`).
- Playback.Fill, Playback.SkipLoop and Validation.Run take fuel: one unit per step, with `Err(NoProgress)` when it runs out. The fuel stands for a termination argument that is not proved here. The source's loops carry no bound of their own, and the model does not say how much fuel a track needs in general. Some tracks need more than any finite amount: when the section after the segno holds no timed event, as in `[SEGNO, VOL 5]`, END restarts at the segno forever and `play_tick` and `skip_ticks` never return (src/player.cpp:201-207, 485-488). Playback.SegnoWithoutTimeNeverPlays proves this for `play_tick` and the intended skip; for Playback.SkipTicks as written it is not proved.
- Validation.ValidateSong keeps every track id as an `int`. The source stores validators under `uint16_t` keys (src/player.cpp:548), so ids outside that range would wrap and could collide.
- Player.GetPlatformVar takes a natural index. The source's `int` parameter lets a negative index read outside the table, which is undefined behaviour.
- `get_event`, `get_stack_type` as an integer, `is_enabled` and `get_play_time` are plain field reads, and `error` is `Err`. They have no members of their own.
- Player.CoarseVolumeFlag and Player.BpmFlag read bits 30 and 31 of the track mask, Interpreter.LoopHook is `loop_hook` (true for a Player, false for a validator), and Stack.Underflow picks the message of `stack_underflow`. These are plain reads or table lookups with no contract of their own; the properties that use them are stated by the Player command lemmas, Interpreter.Dispatch and Stack.UnderflowInjective.
- BasicPlayer.Init: the source's constructor leaves `event` and `reference` uninitialised. The model sets them to a NOP event and 0, and promises nothing about them.
- Widths: event parameters, track positions, frame loop counts, the unsigned `loop_count` and `loop_reset_count`, and the validator's segno time are unbounded integers here. In the source they are `int` or `unsigned int`, so drum-mode base plus note (src/player.cpp:254), the frame count decrement (src/player.cpp:169) and the restart count increment (src/player.cpp:206) can overflow there and cannot here. The segno time is a signed `int` that holds -1 for "no segno" (src/player.cpp:497, 508, 519): a SEGNO reached at a play time of 2^31 or later stores a negative value there, which can read as "no segno"; `Marks.segnoTime` does not wrap.
- Playback.SkipTicks: models `skip_ticks` as written, which can stop idle on a zero-length event (see Findings). Its contract states the clock, the note count and the skip flag; equivalence with `play_tick` is proved for Playback.FixedSkipTicks instead, by Playback.SkipMatchesPlay.
- ControlFlow.LoopBodyRunsNTimes: the body may not hold a nested loop, a LOOP_BREAK, a JUMP or an END. In a Player, drum mode must be off before the loop, every DRUM_MODE in the body must switch it off, and every PLATFORM must name a defined command. With drum mode on, a NOTE calls a drum routine, which this theorem does not follow.
- ControlFlow.BreakLoopRunsNTimes: A and B have the same restrictions as the body of ControlFlow.LoopBodyRunsNTimes, and hold no second LOOP_BREAK.
- ControlFlow.BreakLoopLeavesAfterNTimes: the same restrictions as ControlFlow.BreakLoopRunsNTimes.
- src/platform/md.h is not modelled: it holds only declarations and floating-point timing. ctrmml.c is not modelled: it is command-line and file I/O.

## Findings

| source | as written | input that shows it | evidently intended | confidence | as-written member | corrected member |
|---|---|---|---|---|---|---|
| src/player.cpp:434-466 | When the skipped ticks run out exactly as a note's on time ends, `skip_ticks` steps once more and leaves the loop with `ticks == 0`. If that step read a zero-length event, the player is left idle on it, with no note pending, and the next note starts one tick late. | Track `[NOTE on 2, VOL 5, NOTE on 4]` at position 1 playing the first note with on time 2; skip 2 ticks. `skip_ticks` stops idle at position 2; two calls of `play_tick` reach position 3 with on time 4. | Skipping n ticks leaves the player where n calls of `play_tick` would, apart from the notes and rests not written. | medium, not executed | Playback.SkipTicksStopsOnGap | Playback.FixedSkipTicks, Playback.SkipMatchesPlay |
