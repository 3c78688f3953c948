/** Player's clock: play_tick advances one tick, skip_ticks jumps ahead
    without writing events. Both step the interpreter whenever no on or off
    time is pending; the source loops until time appears, here each step is
    paid for with one unit of fuel. */
module Playback {
  import opened Events
  import opened Errors
  import opened BasicPlayer
  import opened Player
  import opened Interpreter

  /** A Player as the interpreter runs it. */
  function AsMachine(p: PlayerState): (m: Machine)
    ensures m.core == p.core && m.mode.Playing? && m.mode.vars == p.vars
    ensures Skipping(m) == p.vars.skip && NotesWritten(m) == p.vars.noteCount
  {
    Machine(p.core, Playing(p.vars))
  }

  /** step_event on a Player. */
  function Step(p: PlayerState, song: Song): (r: Result<PlayerState>)
    ensures r.Ok? ==> r.value.core.playTime == p.core.playTime + p.core.onTime + p.core.offTime
    ensures r.Ok? ==> r.value.vars.skip == p.vars.skip
    ensures r.Ok? && p.vars.skip ==> r.value.vars.noteCount == p.vars.noteCount
  {
    var m :- StepEvent(AsMachine(p), song);
    Ok(PlayerState(m.core, m.mode.vars))
  }

  /** Enabled with no time pending: the player must step before time can pass. */
  predicate Idle(p: PlayerState)
  {
    p.core.enabled && p.core.onTime == 0 && p.core.offTime == 0
  }

  /** This tick ends the note: on time runs out while off time remains. */
  predicate KeyOff(p: PlayerState)
  {
    p.core.onTime == 1 && p.core.offTime > 0
  }

  /** The first half of play_tick: one tick of on time, or else of off time,
      elapses; when the note's on time runs out with off time left, a REST is
      written for the key-off. Nothing else changes. */
  function KeyTick(p: PlayerState): (r: PlayerState)
    ensures r.core == p.core.(onTime := r.core.onTime, offTime := r.core.offTime, event := r.core.event)
    ensures p.core.onTime > 0 ==> r.core.onTime == p.core.onTime - 1 && r.core.offTime == p.core.offTime
    ensures p.core.onTime == 0 ==> r.core.onTime == 0 && r.core.offTime == (if p.core.offTime > 0 then p.core.offTime - 1 else 0)
    ensures KeyOff(p) ==> r.core.event == Event(Rest, 0, 0, 0, p.core.reference)
    ensures KeyOff(p) ==> r.vars == p.vars.(restCount := p.vars.restCount + 1)
    ensures !KeyOff(p) ==> r.core.event == p.core.event && r.vars == p.vars
  {
    var c := p.core;
    if c.onTime > 0 then
      var c' := c.(onTime := c.onTime - 1);
      if c'.onTime == 0 && c'.offTime > 0 then
        var rest := Event(Rest, 0, 0, 0, c.reference);
        PlayerState(c'.(event := rest), WriteEvent(rest, p.vars))
      else PlayerState(c', p.vars)
    else if c.offTime > 0 then PlayerState(c.(offTime := c.offTime - 1), p.vars)
    else p
  }

  /** The stepping loop of play_tick: step while idle. The steps take no
      time, since each is entered with nothing pending, and afterwards the
      player is stopped or has time pending. */
  function Fill(p: PlayerState, song: Song, fuel: nat): (r: Result<PlayerState>)
    ensures r.Ok? ==> !Idle(r.value)
    ensures r.Ok? ==> r.value.core.playTime == p.core.playTime
    ensures r.Ok? ==> r.value.vars.skip == p.vars.skip
    ensures r.Ok? && p.vars.skip ==> r.value.vars.noteCount == p.vars.noteCount
    ensures !Idle(p) ==> r == Ok(p)
    ensures Idle(p) && fuel == 0 ==> r == Err(NoProgress)
    decreases fuel
  {
    if !Idle(p) then Ok(p)
    else if fuel == 0 then Err(NoProgress)
    else
      var q :- Step(p, song);
      Fill(q, song, fuel - 1)
  }

  /** play_tick: exactly one tick passes, and the player is left stopped or
      with time pending. */
  function PlayTick(p: PlayerState, song: Song, fuel: nat): (r: Result<PlayerState>)
    ensures r.Ok? ==> r.value.core.playTime == p.core.playTime + 1
    ensures r.Ok? ==> !Idle(r.value)
    ensures r.Ok? ==> r.value.vars.skip == p.vars.skip
    ensures r.Ok? && p.vars.skip ==> r.value.vars.noteCount == p.vars.noteCount
    ensures !Idle(KeyTick(p)) ==>
              r == Ok(KeyTick(p).(core := KeyTick(p).core.(playTime := p.core.playTime + 1)))
  {
    var q :- Fill(KeyTick(p), song, fuel);
    Ok(q.(core := q.core.(playTime := q.core.playTime + 1)))
  }

  /** n calls of play_tick. */
  function PlayTicks(p: PlayerState, n: nat, song: Song, fuel: nat): (r: Result<PlayerState>)
    ensures r.Ok? ==> r.value.core.playTime == p.core.playTime + n
    ensures r.Ok? ==> r.value.vars.skip == p.vars.skip
    ensures r.Ok? && p.vars.skip ==> r.value.vars.noteCount == p.vars.noteCount
    decreases n
  {
    if n == 0 then Ok(p)
    else
      var q :- PlayTick(p, song, fuel);
      PlayTicks(q, n - 1, song, fuel)
  }

  /** The loop of skip_ticks, from the point where the skip flag is set:
      consume pending on time, then off time, stepping whenever both are
      used up; stop early when the player is disabled or the remaining ticks
      fall inside pending time; finally the remaining ticks are added to the
      play time. */
  function SkipLoop(p: PlayerState, ticks: nat, song: Song, fuel: nat): (r: Result<PlayerState>)
    ensures r.Ok? ==> r.value.core.playTime == p.core.playTime + ticks
    ensures r.Ok? ==> r.value.vars.skip == p.vars.skip
    ensures r.Ok? && p.vars.skip ==> r.value.vars.noteCount == p.vars.noteCount
    decreases fuel
  {
    var c := p.core;
    if ticks == 0 || !c.enabled then
      Ok(p.(core := c.(playTime := c.playTime + ticks)))
    else if c.onTime > ticks then
      Ok(p.(core := c.(onTime := c.onTime - ticks, playTime := c.playTime + ticks)))
    else
      var left := ticks - c.onTime;
      var c1 := c.(playTime := c.playTime + c.onTime, onTime := 0);
      if c1.offTime > left then
        Ok(p.(core := c1.(offTime := c1.offTime - left, playTime := c1.playTime + left)))
      else
        var left' := left - c1.offTime;
        var c2 := c1.(playTime := c1.playTime + c1.offTime, offTime := 0);
        if fuel == 0 then Err(NoProgress)
        else
          var q :- Step(p.(core := c2), song);
          SkipLoop(q, left', song, fuel - 1)
  }

  /** skip_ticks: exactly `ticks` ticks pass and no note is written. A
      stopped player only has its play time advanced; a running one skips
      with the skip flag set, and the flag is clear afterwards. */
  function SkipTicks(p: PlayerState, ticks: Ticks, song: Song, fuel: nat): (r: Result<PlayerState>)
    ensures r.Ok? ==> r.value.core.playTime == p.core.playTime + ticks
    ensures r.Ok? ==> r.value.vars.noteCount == p.vars.noteCount
    ensures r.Ok? && p.core.enabled ==> !r.value.vars.skip
    ensures !p.core.enabled ==> r == Ok(p.(core := p.core.(playTime := p.core.playTime + ticks)))
  {
    if !p.core.enabled then
      Ok(p.(core := p.core.(playTime := p.core.playTime + ticks)))
    else
      var q :- SkipLoop(p.(vars := p.vars.(skip := true)), ticks, song, fuel);
      Ok(q.(vars := q.vars.(skip := false)))
  }

  /** A tick that does not end the current note only counts on time down
      and the clock up. */
  lemma TickWithinNote(p: PlayerState, song: Song, fuel: nat)
    requires p.core.enabled && p.core.onTime > 1
    ensures PlayTick(p, song, fuel) ==
              Ok(p.(core := p.core.(onTime := p.core.onTime - 1, playTime := p.core.playTime + 1)))
  {
    assert !KeyOff(p) && !Idle(KeyTick(p));
  }

  /** While the current note lasts, playing k ticks only counts on time down
      and the clock up. */
  lemma {:induction false} PlayWithinNote(p: PlayerState, k: nat, song: Song, fuel: nat)
    requires p.core.enabled && p.core.onTime > k
    ensures PlayTicks(p, k, song, fuel) ==
              Ok(p.(core := p.core.(onTime := p.core.onTime - k, playTime := p.core.playTime + k)))
    decreases k
  {
    if k > 0 {
      var q := p.(core := p.core.(onTime := p.core.onTime - 1, playTime := p.core.playTime + 1));
      TickWithinNote(p, song, fuel);
      PlayWithinNote(q, k - 1, song, fuel);
      assert q.core.(onTime := q.core.onTime - (k - 1), playTime := q.core.playTime + (k - 1)) ==
             p.core.(onTime := p.core.onTime - k, playTime := p.core.playTime + k);
    }
  }

  /** Skipping and playing agree while the current note lasts: n ticks of
      either leave the same player. */
  lemma SkipMatchesPlayWithinNote(p: PlayerState, n: Ticks, song: Song, fuel: nat)
    requires p.core.enabled && p.core.onTime > n && !p.vars.skip
    ensures SkipTicks(p, n, song, fuel).Ok?
    ensures SkipTicks(p, n, song, fuel) == PlayTicks(p, n, song, fuel)
  {
    PlayWithinNote(p, n, song, fuel);
    assert p.vars.(skip := true).(skip := false) == p.vars;
  }

  /** A stopped player with nothing pending only has its clock advanced. */
  lemma {:induction false} PlayWhenStopped(p: PlayerState, k: nat, song: Song, fuel: nat)
    requires !p.core.enabled && p.core.onTime == 0 && p.core.offTime == 0
    ensures PlayTicks(p, k, song, fuel) == Ok(p.(core := p.core.(playTime := p.core.playTime + k)))
    decreases k
  {
    if k > 0 {
      var q := p.(core := p.core.(playTime := p.core.playTime + 1));
      assert PlayTick(p, song, fuel) == Ok(q);
      PlayWhenStopped(q, k - 1, song, fuel);
    }
  }

  /** Once play has stopped, skipping and playing agree. */
  lemma SkipMatchesPlayWhenStopped(p: PlayerState, n: Ticks, song: Song, fuel: nat)
    requires !p.core.enabled && p.core.onTime == 0 && p.core.offTime == 0
    ensures SkipTicks(p, n, song, fuel) == PlayTicks(p, n, song, fuel)
  {
    PlayWhenStopped(p, n, song, fuel);
  }

  /** A Player with what it has written erased: the skip flag and the note
      and rest counters. */
  function Unwritten(p: PlayerState): (r: PlayerState)
    ensures r.core == p.core && SameTables(r.vars, p.vars)
    ensures !r.vars.skip && r.vars.noteCount == 0 && r.vars.restCount == 0
  {
    p.(vars := p.vars.(skip := false, noteCount := 0, restCount := 0))
  }

  /** The outcome of running a Player, with what it has written erased. */
  function UnwrittenResult(r: Result<PlayerState>): Result<PlayerState>
  {
    match r
    case Ok(p) => Ok(Unwritten(p))
    case Err(e) => Err(e)
  }

  /** Two Players in the same state apart from what they have written. */
  predicate SamePlay(p: PlayerState, q: PlayerState)
  {
    Unwritten(p) == Unwritten(q)
  }

  /** step_event reads neither the skip flag nor the counters. */
  lemma PlayStepIgnoresWrites(p: PlayerState, q: PlayerState, song: Song)
    requires SamePlay(p, q)
    ensures UnwrittenResult(Step(p, song)) == UnwrittenResult(Step(q, song))
  {
    Interpreter.StepIgnoresWrites(AsMachine(p), AsMachine(q), song);
  }

  /** The stepping loop of play_tick for any step function; with step_event
      it is Fill. */
  function FillWith(p: PlayerState, step: PlayerState -> Result<PlayerState>, fuel: nat): Result<PlayerState>
    decreases fuel
  {
    if !Idle(p) then Ok(p)
    else if fuel == 0 then Err(NoProgress)
    else
      match step(p)
      case Ok(q) => FillWith(q, step, fuel - 1)
      case Err(e) => Err(e)
  }

  /** step_event on a Player, as a function value. */
  function StepOf(song: Song): PlayerState -> Result<PlayerState>
  {
    p => Step(p, song)
  }

  lemma {:induction false} FillIsFillWith(p: PlayerState, song: Song, fuel: nat)
    ensures Fill(p, song, fuel) == FillWith(p, StepOf(song), fuel)
    decreases fuel
  {
    if Idle(p) && fuel > 0 && Step(p, song).Ok? {
      FillIsFillWith(Step(p, song).value, song, fuel - 1);
    }
  }

  /** A step that reads neither the skip flag nor the counters. */
  ghost predicate StepIgnoresWrites(step: PlayerState -> Result<PlayerState>)
  {
    forall p, q | SamePlay(p, q) :: UnwrittenResult(step(p)) == UnwrittenResult(step(q))
  }

  /** The stepping loop with such a step reads them neither. */
  lemma {:induction false} FillWithIgnoresWrites(p: PlayerState, q: PlayerState, step: PlayerState -> Result<PlayerState>, fuel: nat)
    requires SamePlay(p, q) && StepIgnoresWrites(step)
    ensures UnwrittenResult(FillWith(p, step, fuel)) == UnwrittenResult(FillWith(q, step, fuel))
    decreases fuel
  {
    if Idle(p) && fuel > 0 && step(p).Ok? {
      assert UnwrittenResult(step(p)) == UnwrittenResult(step(q));
      FillWithIgnoresWrites(step(p).value, step(q).value, step, fuel - 1);
    }
  }

  /** Nor does the stepping loop of play_tick. */
  lemma FillIgnoresWrites(p: PlayerState, q: PlayerState, song: Song, fuel: nat)
    requires SamePlay(p, q)
    ensures UnwrittenResult(Fill(p, song, fuel)) == UnwrittenResult(Fill(q, song, fuel))
  {
    forall x, y | SamePlay(x, y) ensures UnwrittenResult(StepOf(song)(x)) == UnwrittenResult(StepOf(song)(y)) {
      PlayStepIgnoresWrites(x, y, song);
    }
    FillIsFillWith(p, song, fuel);
    FillIsFillWith(q, song, fuel);
    FillWithIgnoresWrites(p, q, StepOf(song), fuel);
  }

  /** Nor does play_tick: the key-off REST only changes a counter. */
  lemma PlayTickIgnoresWrites(p: PlayerState, q: PlayerState, song: Song, fuel: nat)
    requires SamePlay(p, q)
    ensures UnwrittenResult(PlayTick(p, song, fuel)) == UnwrittenResult(PlayTick(q, song, fuel))
  {
    FillIgnoresWrites(KeyTick(p), KeyTick(q), song, fuel);
  }

  /** Two Players that differ only in what they write play the same: both
      fail with the same error, or both end in the same state apart from
      what they have written. */
  lemma {:induction false} PlayTicksIgnoresWrites(p: PlayerState, q: PlayerState, n: nat, song: Song, fuel: nat)
    requires SamePlay(p, q)
    ensures UnwrittenResult(PlayTicks(p, n, song, fuel)) == UnwrittenResult(PlayTicks(q, n, song, fuel))
    decreases n
  {
    if n > 0 {
      PlayTickIgnoresWrites(p, q, song, fuel);
      var tp, tq := PlayTick(p, song, fuel), PlayTick(q, song, fuel);
      if tp.Ok? {
        PlayTicksIgnoresWrites(tp.value, tq.value, n - 1, song, fuel);
      }
    }
  }

  /** skip_ticks as evidently intended: `ticks` calls of play_tick with the
      skip flag set, so that nothing is written, and the flag clear
      afterwards. */
  function FixedSkipTicks(p: PlayerState, ticks: Ticks, song: Song, fuel: nat): (r: Result<PlayerState>)
    ensures r.Ok? ==> r.value.core.playTime == p.core.playTime + ticks
    ensures r.Ok? ==> r.value.vars.noteCount == p.vars.noteCount
    ensures r.Ok? ==> !r.value.vars.skip
  {
    var q :- PlayTicks(p.(vars := p.vars.(skip := true)), ticks, song, fuel);
    Ok(q.(vars := q.vars.(skip := false)))
  }

  /** Skipping to a time leaves the player where playing to it would: the
      same interpreter state and the same tables, or the same error. Only
      the notes and rests written differ. */
  lemma SkipMatchesPlay(p: PlayerState, n: Ticks, song: Song, fuel: nat)
    ensures UnwrittenResult(FixedSkipTicks(p, n, song, fuel)) == UnwrittenResult(PlayTicks(p, n, song, fuel))
  {
    PlayTicksIgnoresWrites(p.(vars := p.vars.(skip := true)), p, n, song, fuel);
  }

  /** A track whose middle event takes no time: a two-tick NOTE, a VOL, a
      four-tick NOTE. */
  function GapTrack(): (t: Track)
    ensures |t| == 3 && t[1].kind == Vol && t[1].onTime == 0 && t[1].offTime == 0
  {
    [Event(Note, 0, 2, 0, 0), Event(Vol, 5, 0, 0, 0), Event(Note, 0, 4, 0, 0)]
  }

  /** A Player on that track that has just read the first NOTE. */
  function AtFirstNote(): (p: PlayerState)
    ensures p.core.enabled && p.core.position == 1 && p.core.onTime == 2 && p.core.offTime == 0
  {
    PlayerState(Core(GapTrack(), true, 1, None, None, [], 0, 0, 0, 2, 0, GapTrack()[0], 0), InitVars(false))
  }

  /** A step onto an event that neither moves the interpreter nor, with
      drum mode off, calls a drum track: the event is read in place. */
  lemma StepInPlace(p: PlayerState, song: Song)
    requires CurrentEvent(p.core).kind in {Note, Vol}
    requires DrumBase(p.vars) == 0
    ensures Step(p, song).Ok? && Step(p, song).value.core == Begin(p.core)
    ensures DrumBase(Step(p, song).value.vars) == 0
  {
    var c := Begin(p.core);
    assert HandleEvent(c, p.vars, song).Ok? && HandleEvent(c, p.vars, song).value.core == c;
  }

  /** Skipping two ticks from the first NOTE of the gap track: the NOTE's
      time runs out, one step reads the VOL, and the skip stops there with
      nothing pending. */
  lemma SkipOnGap(song: Song, fuel: nat)
    requires fuel >= 1
    ensures SkipTicks(AtFirstNote(), 2, song, fuel).Ok?
    ensures SkipTicks(AtFirstNote(), 2, song, fuel).value.core.position == 2
    ensures Idle(SkipTicks(AtFirstNote(), 2, song, fuel).value)
  {
    var p := AtFirstNote();
    var atEnd := p.(core := p.core.(onTime := 0, playTime := 2), vars := p.vars.(skip := true));
    assert CurrentEvent(atEnd.core) == GapTrack()[1];
    StepInPlace(atEnd, song);
    var vol := Step(atEnd, song).value;
    assert SkipLoop(p.(vars := p.vars.(skip := true)), 2, song, fuel) == SkipLoop(vol, 0, song, fuel - 1);
  }

  /** Playing two ticks from the first NOTE of the gap track: the first
      tick counts down, the second ends the NOTE, and the steps read the VOL
      and then the second NOTE, whose four ticks are pending. */
  lemma PlayOnGap(song: Song, fuel: nat)
    requires fuel >= 2
    ensures PlayTicks(AtFirstNote(), 2, song, fuel).Ok?
    ensures PlayTicks(AtFirstNote(), 2, song, fuel).value.core.position == 3
    ensures PlayTicks(AtFirstNote(), 2, song, fuel).value.core.onTime == 4
  {
    var p := AtFirstNote();
    TickWithinNote(p, song, fuel);
    var ticked := p.(core := p.core.(onTime := 1, playTime := 1));
    var idle := ticked.(core := ticked.core.(onTime := 0));
    assert KeyTick(ticked) == idle;
    assert CurrentEvent(idle.core) == GapTrack()[1];
    StepInPlace(idle, song);
    var vol := Step(idle, song).value;
    assert CurrentEvent(vol.core) == GapTrack()[2];
    StepInPlace(vol, song);
    var note := Step(vol, song).value;
    assert Fill(idle, song, fuel) == Fill(vol, song, fuel - 1) == Ok(note);
    assert PlayTick(ticked, song, fuel) == Ok(note.(core := note.core.(playTime := 2)));
  }

  /** skip_ticks as written steps only once when the skipped time runs out
      at the end of a note, so it stops on the VOL, which takes no time;
      play_tick steps on while nothing is pending and reaches the second
      NOTE. The two disagree after two ticks from the first NOTE, and the
      corrected skip agrees with playing. */
  lemma SkipTicksStopsOnGap(song: Song, fuel: nat)
    requires fuel >= 2
    ensures SkipTicks(AtFirstNote(), 2, song, fuel).Ok? && PlayTicks(AtFirstNote(), 2, song, fuel).Ok?
    ensures SkipTicks(AtFirstNote(), 2, song, fuel).value.core != PlayTicks(AtFirstNote(), 2, song, fuel).value.core
    ensures FixedSkipTicks(AtFirstNote(), 2, song, fuel).Ok?
    ensures FixedSkipTicks(AtFirstNote(), 2, song, fuel).value.core == PlayTicks(AtFirstNote(), 2, song, fuel).value.core
  {
    SkipOnGap(song, fuel);
    PlayOnGap(song, fuel);
    SkipMatchesPlay(AtFirstNote(), 2, song, fuel);
  }

  /** A track that restarts at a segno with nothing timed after it: SEGNO,
      then a VOL. */
  function SegnoTrack(): (t: Track)
    ensures |t| == 2 && t[0].kind == Segno && t[1].kind == Vol
  {
    [Event(Segno, 0, 0, 0, 0), Event(Vol, 5, 0, 0, 0)]
  }

  /** Running idle on that track: about to read the SEGNO, or, past it,
      about to read the VOL, or at the end and about to restart at the VOL. */
  predicate Spinning(p: PlayerState)
  {
    && p.core.track == SegnoTrack()
    && Idle(p)
    && p.core.stack == []
    && (p.core.position == 0 || (p.core.loopPosition == Some(1) && 1 <= p.core.position <= 2))
  }

  /** Each step keeps such a Player spinning: it reads the SEGNO or the VOL,
      or the END past the track restarts it at the segno, and no time
      appears. */
  lemma SpinningStep(p: PlayerState, song: Song)
    requires Spinning(p)
    ensures Step(p, song).Ok? && Spinning(Step(p, song).value)
  {
    if p.core.position == 0 {
      SpinningPastSegno(p, song);
    } else if p.core.position == 1 {
      SpinningPastVolume(p, song);
    } else {
      SpinningRestarts(p, song);
    }
  }

  /** Reading the VOL moves on to the end of the track. */
  lemma SpinningPastVolume(p: PlayerState, song: Song)
    requires Spinning(p) && p.core.position == 1
    ensures Step(p, song).Ok? && Spinning(Step(p, song).value)
  {
    var c := Begin(p.core);
    assert c.event == SegnoTrack()[1];
    assert StepEvent(AsMachine(p), song) == Interpreter.EventHook(Machine(c, Playing(p.vars)), song);
  }

  /** The END past the track goes back to the VOL after the segno. */
  lemma SpinningRestarts(p: PlayerState, song: Song)
    requires Spinning(p) && p.core.position == 2
    ensures Step(p, song).Ok? && Spinning(Step(p, song).value)
  {
    assert Begin(p.core).event.kind == End;
  }

  /** Reading the SEGNO marks the VOL after it as the restart point. */
  lemma SpinningPastSegno(p: PlayerState, song: Song)
    requires Spinning(p) && p.core.position == 0
    ensures Step(p, song).Ok? && Spinning(Step(p, song).value)
  {
    var c := Begin(p.core);
    assert c.event == SegnoTrack()[0] && c.position == 1;
    var marked := Machine(c.(loopPosition := Some(1), loopResetPosition := Some(1)), Playing(p.vars));
    assert StepEvent(AsMachine(p), song) == Interpreter.EventHook(marked, song);
  }

  /** A step function that keeps every spinning Player spinning. */
  ghost predicate KeepsSpinning(step: PlayerState -> Result<PlayerState>)
  {
    forall x | Spinning(x) :: step(x).Ok? && Spinning(step(x).value)
  }

  /** step_event is one. */
  lemma StepKeepsSpinning(song: Song)
    ensures KeepsSpinning(StepOf(song))
  {
    forall x | Spinning(x) ensures StepOf(song)(x).Ok? && Spinning(StepOf(song)(x).value) {
      SpinningStep(x, song);
    }
  }

  /** The stepping loop of play_tick never ends on a spinning Player: it
      runs out of fuel, whatever the fuel. */
  lemma SpinningNeverFills(p: PlayerState, song: Song, fuel: nat)
    requires Spinning(p)
    ensures Fill(p, song, fuel) == Err(NoProgress)
  {
    StepKeepsSpinning(song);
    FillIsFillWith(p, song, fuel);
    FillWithSpins(p, StepOf(song), fuel);
  }

  /** The same for any step that keeps a Player spinning. */
  lemma {:induction false} FillWithSpins(p: PlayerState, step: PlayerState -> Result<PlayerState>, fuel: nat)
    requires Spinning(p) && KeepsSpinning(step)
    ensures FillWith(p, step, fuel) == Err(NoProgress)
    decreases fuel
  {
    if fuel > 0 {
      FillWithSpins(step(p).value, step, fuel - 1);
    }
  }

  /** A segno section with no timed event: play_tick never returns on a
      fresh Player of that track, and neither does the corrected skip, so
      every fuel runs out. */
  lemma SegnoWithoutTimeNeverPlays(song: Song, ticks: Ticks, fuel: nat)
    requires ticks > 0
    ensures PlayTick(PlayerState(Init(SegnoTrack()), InitVars(false)), song, fuel) == Err(NoProgress)
    ensures FixedSkipTicks(PlayerState(Init(SegnoTrack()), InitVars(false)), ticks, song, fuel) == Err(NoProgress)
  {
    var p := PlayerState(Init(SegnoTrack()), InitVars(false));
    assert Spinning(p);
    SpinningNeverTicks(p, song, fuel);
    SpinningNeverSkips(p, ticks, song, fuel);
  }

  /** Nor does the corrected skip, once there are ticks to skip. */
  lemma SpinningNeverSkips(p: PlayerState, ticks: Ticks, song: Song, fuel: nat)
    requires Spinning(p) && ticks > 0
    ensures FixedSkipTicks(p, ticks, song, fuel) == Err(NoProgress)
  {
    var skipping := p.(vars := p.vars.(skip := true));
    SpinningNeverTicks(skipping, song, fuel);
    assert PlayTicks(skipping, ticks, song, fuel) == Err(NoProgress);
  }

  /** Nor does play_tick on a spinning Player. */
  lemma SpinningNeverTicks(p: PlayerState, song: Song, fuel: nat)
    requires Spinning(p)
    ensures PlayTick(p, song, fuel) == Err(NoProgress)
  {
    assert KeyTick(p) == p;
    SpinningNeverFills(p, song, fuel);
  }
}
