/** The musical layer (Player): the per-channel state table with its
    32-bit "changed" mask, drum-mode subroutine dispatch, the platform-command
    lookup and the note/rest counters. */
module Player {
  import opened Events
  import opened Errors
  import opened Stack
  import opened BasicPlayer

  /** Synthetic mask bits: coarse (rather than fine) volume, and BPM (rather
      than native timer) tempo. */
  const VolBit: nat := 30
  const BpmBit: nat := 31

  /** A 32-bit mask, as the set of its set bits. */
  type Mask = s: set<nat> | forall i :: i in s ==> i < 32 witness {}

  /** One int16 slot per channel command. */
  type StateTable = s: seq<I16> | |s| == StateSize witness seq(StateSize, _ => 0)

  /** The 32 platform-specific int16 variables. */
  type PlatformTable = s: seq<I16> | |s| == 32 witness seq(32, _ => 0)

  /** Player's own fields; `skip` is the PLAYER_SKIP flag. */
  datatype Vars = Vars(
    skip: bool,
    noteCount: nat,
    restCount: nat,
    platformState: PlatformTable,
    platformMask: Mask,
    trackState: StateTable,
    trackMask: Mask)

  datatype PlayerState = PlayerState(core: Core, vars: Vars)

  /** A fresh Player's own fields: zero tables, empty masks, zero counters,
      and the skip flag as the caller passes it. */
  function InitVars(skip: bool): (v: Vars)
    ensures v.skip == skip
    ensures v.noteCount == 0 && v.restCount == 0
    ensures v.trackMask == {} && v.platformMask == {}
    ensures forall i :: 0 <= i < StateSize ==> v.trackState[i] == 0
    ensures forall i :: 0 <= i < 32 ==> v.platformState[i] == 0
  {
    Vars(skip, 0, 0, seq(32, _ => 0), {}, seq(StateSize, _ => 0), {})
  }

  /** The state slot of a channel command (CH_STATE). */
  function Var(v: Vars, t: EventType): I16
    requires IsChannelCmd(t)
  {
    v.trackState[Slot(t)]
  }

  /** The drum-mode base track number; drum mode is on when it is not 0. */
  function DrumBase(v: Vars): I16
  {
    Var(v, DrumMode)
  }

  /** Drum-mode dispatch of a NOTE. Outside a drum-mode frame, the note calls
      track base+note: its caller's position, track and on/off time are saved
      in a DRUM_MODE frame, timing is zeroed and the note becomes a NOP. Any
      failure while entering (undefined track, full stack) is reported as a
      drum-mode error naming the computed track. With a drum-mode frame on
      top, the note ends the subroutine and restores what the frame saved. */
  function HandleDrumMode(c: Core, v: Vars, song: Song): (r: Result<Core>)
    ensures TopKind(c.stack) == Some(DrumModeFrame) ==> r.Ok? && r.value.stack + [c.stack[|c.stack| - 1]] == c.stack
    ensures TopKind(c.stack) != Some(DrumModeFrame) ==>
              (r.Ok? <==> DrumBase(v) + c.event.param in song.tracks && |c.stack| < MaxStackDepth)
    ensures TopKind(c.stack) != Some(DrumModeFrame) && r.Err? ==>
              r.error == InputError(DrumModeTrackUndefined(DrumBase(v) + c.event.param, DrumBase(v), c.event.param), c.reference)
    ensures r.Ok? ==> r.value.playTime == c.playTime && SameLoopState(c, r.value)
    ensures r.Ok? && |c.stack| <= MaxStackDepth ==> |r.value.stack| <= MaxStackDepth
  {
    if TopKind(c.stack) != Some(DrumModeFrame) then
      var offset := DrumBase(v);
      var id := offset + c.event.param;
      var failure := Err(InputError(DrumModeTrackUndefined(id, offset, c.event.param), c.reference));
      if id !in song.tracks then failure
      else
        // A full stack inside the source's try block is reported as a drum-mode error.
        (match Push(c.stack, Frame(DrumModeFrame, c.track, c.position, c.onTime, c.offTime), c.reference)
         case Err(_) => failure
         case Ok(pushed) =>
           Ok(c.(stack := pushed, track := song.tracks[id], position := 0,
                 onTime := 0, offTime := 0, event := c.event.(kind := Nop))))
    else
      // The drum-mode frame on top: the checked top and pop both succeed.
      var top := c.stack[|c.stack| - 1];
      Ok(c.(onTime := ToUint32(top.endPosition), offTime := ToUint32(top.loopCount),
            position := top.position, track := top.track, stack := c.stack[..|c.stack| - 1]))
  }

  /** FLAG_SET: set bit `i` of a mask. */
  function Mark(m: Mask, i: nat): Mask
    requires i < 32
  {
    m + {i}
  }

  /** FLAG_CLR: clear bit `i` of a mask. */
  function Unmark(m: Mask, i: nat): Mask
  {
    m - {i}
  }

  /** CH_STATE(t) = x, for the slot `i` of t. */
  function Store(s: StateTable, i: nat, x: I16): StateTable
    requires i < StateSize
  {
    s[i := x]
  }

  /** Add `delta` to the fine volume and mark it changed. */
  function AddFineVolume(v: Vars, delta: int): Vars
  {
    v.(trackState := Store(v.trackState, Slot(VolFine), ToInt16(Var(v, VolFine) + delta)),
       trackMask := Mark(v.trackMask, Slot(VolFine)))
  }

  /** handle_event: the musical meaning of one event. */
  function HandleEvent(c: Core, v: Vars, song: Song): (r: Result<PlayerState>)
    ensures r.Ok? ==> r.value.core.playTime == c.playTime && SameLoopState(c, r.value.core)
    ensures r.Ok? ==> r.value.vars.skip == v.skip && r.value.vars.noteCount == v.noteCount
    ensures r.Ok? ==> r.value.vars.restCount == v.restCount
    ensures r.Ok? && |c.stack| <= MaxStackDepth ==> |r.value.core.stack| <= MaxStackDepth
    ensures c.event.kind != Note ==> r.Err? || r.value.core == c
    ensures c.event.kind != Note && c.event.kind != Platform ==> r.Ok?
  {
    var e := c.event;
    match e.kind
    case Note =>
      if DrumBase(v) != 0 then
        var c' :- HandleDrumMode(c, v, song);
        Ok(PlayerState(c', v))
      else Ok(PlayerState(c, v))
    case Platform =>
      // The base Player's platform parser changes nothing and reports no bits.
      if e.param in song.platformCommands then Ok(PlayerState(c, v))
      else Err(InputError(PlatformCommandUndefined(e.param), c.reference))
    case TransposeRel =>
      Ok(PlayerState(c, v.(trackState := Store(v.trackState, Slot(Transpose), ToInt16(Var(v, Transpose) + e.param)),
                           trackMask := Mark(v.trackMask, Slot(Transpose)))))
    case Vol =>
      var reset := v.(trackState := Store(v.trackState, Slot(VolFine), 0));
      var v' := AddFineVolume(reset, e.param);
      Ok(PlayerState(c, v'.(trackMask := Mark(v'.trackMask, VolBit))))
    case VolRel =>
      var v' := AddFineVolume(v, e.param);
      Ok(PlayerState(c, v'.(trackMask := Mark(v'.trackMask, VolBit))))
    case VolFineRel =>
      var v' := AddFineVolume(v, e.param);
      Ok(PlayerState(c, v'.(trackMask := Unmark(v'.trackMask, VolBit))))
    case TempoBpm =>
      Ok(PlayerState(c, v.(trackState := Store(v.trackState, Slot(Tempo), ToInt16(e.param)),
                           trackMask := Mark(Mark(v.trackMask, Slot(Tempo)), BpmBit))))
    case _ => Ok(PlayerState(c, GenericCommand(v, e)))
  }

  /** Any other event: a channel command stores its parameter in its slot and
      marks the slot changed; every other event changes nothing. The slot
      offset is compared with the absolute codes of VOL_FINE and TEMPO when
      deciding whether to clear the coarse-volume and BPM bits. */
  function GenericCommand(v: Vars, e: Event): (r: Vars)
    ensures !IsChannelCmd(e.kind) ==> r == v
    ensures r.skip == v.skip && r.noteCount == v.noteCount && r.restCount == v.restCount
  {
    if IsChannelCmd(e.kind) then
      var t := Code(e.kind) - ChannelCmd;
      var marked := Mark(v.trackMask, t);
      var afterVol := if t == Code(VolFine) then Unmark(marked, VolBit) else marked;
      var mask := if t == Code(Tempo) then Unmark(afterVol, BpmBit) else afterVol;
      v.(trackState := Store(v.trackState, t, ToInt16(e.param)), trackMask := mask)
    else v
  }

  /** write_event of the base Player: count notes, and rests and ends. */
  function WriteEvent(e: Event, v: Vars): (r: Vars)
    ensures r.noteCount == v.noteCount + (if e.kind == Note then 1 else 0)
    ensures r.restCount == v.restCount + (if e.kind == Rest || e.kind == End then 1 else 0)
    ensures r == v.(noteCount := r.noteCount, restCount := r.restCount)
  {
    if e.kind == Note then v.(noteCount := v.noteCount + 1)
    else if e.kind == Rest || e.kind == End then v.(restCount := v.restCount + 1)
    else v
  }

  /** event_hook: handle the event, then write it unless skipping. */
  function EventHook(c: Core, v: Vars, song: Song): (r: Result<PlayerState>)
    ensures r.Ok? ==> r.value.core.playTime == c.playTime && r.value.vars.skip == v.skip
    ensures r.Ok? ==> SameLoopState(c, r.value.core)
    ensures r.Ok? && |c.stack| <= MaxStackDepth ==> |r.value.core.stack| <= MaxStackDepth
    ensures r.Ok? && v.skip ==> r.value.vars.noteCount == v.noteCount && r.value.vars.restCount == v.restCount
    ensures c.event.kind != Note ==> r.Err? || r.value.core == c
    ensures c.event.kind != Note && c.event.kind != Platform ==> r.Ok?
    ensures r.Ok? && !v.skip ==>
              && r.value.vars.noteCount == v.noteCount + (if r.value.core.event.kind == Note then 1 else 0)
              && r.value.vars.restCount == v.restCount + (if r.value.core.event.kind in {Rest, End} then 1 else 0)
    ensures r.Ok? ==> DrumBase(r.value.vars) == (if c.event.kind == DrumMode then ToInt16(c.event.param) else DrumBase(v))
  {
    OnlyDrumModeSetsDrumBase(c, v, song);
    var p :- HandleEvent(c, v, song);
    if !p.vars.skip then Ok(p.(vars := WriteEvent(p.core.event, p.vars))) else Ok(p)
  }

  /** end_hook: write a synthesized END (counted as a rest). */
  function EndHook(c: Core, v: Vars): (r: PlayerState)
    ensures r.core == c.(event := Event(End, 0, 0, 0, c.reference))
    ensures r.vars.restCount == v.restCount + 1 && r.vars.noteCount == v.noteCount
    ensures r.vars.skip == v.skip
  {
    var c' := c.(event := Event(End, 0, 0, 0, c.reference));
    PlayerState(c', WriteEvent(c'.event, v))
  }

  /** get_update_flag: the changed bit of a channel command. */
  function GetUpdateFlag(p: PlayerState, t: EventType): (r: Result<bool>)
    ensures r.Ok? <==> IsChannelCmd(t)
    ensures r.Err? ==> r.error == InputError(UnsupportedEventType, p.core.reference)
    ensures r.Ok? ==> (r.value <==> Slot(t) in p.vars.trackMask)
  {
    if !IsChannelCmd(t) then Err(InputError(UnsupportedEventType, p.core.reference))
    else Ok(Slot(t) in p.vars.trackMask)
  }

  /** clear_update_flag: clear the changed bit of a channel command. */
  function ClearUpdateFlag(p: PlayerState, t: EventType): (r: Result<PlayerState>)
    ensures r.Ok? <==> IsChannelCmd(t)
    ensures r.Err? ==> r.error == InputError(UnsupportedEventType, p.core.reference)
    ensures r.Ok? ==> r.value.core == p.core && r.value.vars.trackState == p.vars.trackState
  {
    if !IsChannelCmd(t) then Err(InputError(UnsupportedEventType, p.core.reference))
    else Ok(p.(vars := p.vars.(trackMask := p.vars.trackMask - {Slot(t)})))
  }

  /** get_platform_flag: bit `t` of the platform mask; false above bit 31. */
  function GetPlatformFlag(v: Vars, t: nat): (b: bool)
    ensures t > 31 ==> !b
    ensures t <= 31 ==> (b <==> t in v.platformMask)
  {
    t <= 31 && t in v.platformMask
  }

  /** clear_platform_flag: clear bit `t`; nothing happens above bit 31. */
  function ClearPlatformFlag(v: Vars, t: nat): (r: Vars)
    ensures t > 31 ==> r == v
    ensures r.platformState == v.platformState && r.trackState == v.trackState && r.trackMask == v.trackMask
  {
    if t > 31 then v else v.(platformMask := v.platformMask - {t})
  }

  /** coarse_volume_flag: bit 30 of the update mask. */
  function CoarseVolumeFlag(v: Vars): bool
  {
    VolBit in v.trackMask
  }

  /** bpm_flag: bit 31 of the update mask. */
  function BpmFlag(v: Vars): bool
  {
    BpmBit in v.trackMask
  }

  /** get_platform_var: platform variable `t`; 0 above index 31. */
  function GetPlatformVar(v: Vars, t: nat): (x: I16)
    ensures t > 31 ==> x == 0
    ensures t <= 31 ==> x == v.platformState[t]
  {
    if t > 31 then 0 else v.platformState[t]
  }

  /** get_var: the state slot of a channel command. */
  function GetVar(p: PlayerState, t: EventType): (r: Result<I16>)
    ensures r.Ok? <==> IsChannelCmd(t)
    ensures r.Err? ==> r.error == InputError(UnsupportedEventType, p.core.reference)
    ensures r.Ok? ==> r.value == p.vars.trackState[Slot(t)]
  {
    if !IsChannelCmd(t) then Err(InputError(UnsupportedEventType, p.core.reference))
    else Ok(Var(p.vars, t))
  }

  // ---------------------------------------------------------------------
  // Properties of the musical layer

  /** A state table that differs from `s` at most in slot `i`. */
  predicate SameExcept(s: StateTable, s': StateTable, i: nat)
  {
    forall j :: 0 <= j < StateSize && j != i ==> s'[j] == s[j]
  }

  /** VOL discards the previous fine volume: the new fine volume is the
      parameter alone, and the fine-volume and coarse-volume bits are set. */
  lemma VolSetsCoarseVolume(c: Core, v: Vars, song: Song)
    requires c.event.kind == Vol
    ensures HandleEvent(c, v, song).Ok?
    ensures var w := HandleEvent(c, v, song).value.vars;
      && Var(w, VolFine) == ToInt16(c.event.param)
      && w.trackMask == v.trackMask + {Slot(VolFine), VolBit}
      && CoarseVolumeFlag(w)
      && SameExcept(v.trackState, w.trackState, Slot(VolFine))
  {
  }

  /** VOL_REL adds to the fine volume and selects coarse volume. */
  lemma VolRelAddsCoarseVolume(c: Core, v: Vars, song: Song)
    requires c.event.kind == VolRel
    ensures HandleEvent(c, v, song).Ok?
    ensures var w := HandleEvent(c, v, song).value.vars;
      && Var(w, VolFine) == ToInt16(Var(v, VolFine) + c.event.param)
      && w.trackMask == v.trackMask + {Slot(VolFine), VolBit}
      && CoarseVolumeFlag(w)
      && SameExcept(v.trackState, w.trackState, Slot(VolFine))
  {
  }

  /** VOL_FINE_REL adds to the fine volume and selects fine volume: the
      coarse bit is cleared and no other bit but fine volume's changes. */
  lemma VolFineRelSelectsFineVolume(c: Core, v: Vars, song: Song)
    requires c.event.kind == VolFineRel
    ensures HandleEvent(c, v, song).Ok?
    ensures var w := HandleEvent(c, v, song).value.vars;
      && Var(w, VolFine) == ToInt16(Var(v, VolFine) + c.event.param)
      && w.trackMask == (v.trackMask + {Slot(VolFine)}) - {VolBit}
      && !CoarseVolumeFlag(w)
      && SameExcept(v.trackState, w.trackState, Slot(VolFine))
  {
  }

  /** TEMPO_BPM stores the tempo and sets both the tempo and BPM bits. */
  lemma TempoBpmSetsBpm(c: Core, v: Vars, song: Song)
    requires c.event.kind == TempoBpm
    ensures HandleEvent(c, v, song).Ok?
    ensures var w := HandleEvent(c, v, song).value.vars;
      && Var(w, Tempo) == ToInt16(c.event.param)
      && w.trackMask == v.trackMask + {Slot(Tempo), BpmBit}
      && BpmFlag(w)
      && SameExcept(v.trackState, w.trackState, Slot(Tempo))
  {
  }

  /** TRANSPOSE_REL adds to the transpose slot and marks it changed. */
  lemma TransposeRelAdds(c: Core, v: Vars, song: Song)
    requires c.event.kind == TransposeRel
    ensures HandleEvent(c, v, song).Ok?
    ensures var w := HandleEvent(c, v, song).value.vars;
      && Var(w, Transpose) == ToInt16(Var(v, Transpose) + c.event.param)
      && w.trackMask == v.trackMask + {Slot(Transpose)}
      && SameExcept(v.trackState, w.trackState, Slot(Transpose))
  {
  }

  /** A channel command without its own case stores its parameter in its own
      slot and marks only that slot. Because the slot offset is compared with
      the absolute codes of VOL_FINE and TEMPO, the coarse-volume and BPM bits
      are left as they were, including for VOL_FINE and TEMPO themselves. */
  lemma GenericCommandKeepsModeBits(c: Core, v: Vars, song: Song)
    requires IsChannelCmd(c.event.kind)
    requires c.event.kind !in {Vol, VolRel, VolFineRel, TempoBpm, TransposeRel}
    ensures HandleEvent(c, v, song).Ok?
    ensures var w := HandleEvent(c, v, song).value.vars;
      && Var(w, c.event.kind) == ToInt16(c.event.param)
      && w.trackMask == v.trackMask + {Slot(c.event.kind)}
      && (CoarseVolumeFlag(w) <==> CoarseVolumeFlag(v))
      && (BpmFlag(w) <==> BpmFlag(v))
      && SameExcept(v.trackState, w.trackState, Slot(c.event.kind))
  {
    var t := Code(c.event.kind) - ChannelCmd;
    assert t < StateSize && t != Code(VolFine) && t != Code(Tempo);
    assert HandleEvent(c, v, song) == Ok(PlayerState(c, GenericCommand(v, c.event)));
  }

  /** The state slot a channel command writes: VOL writes the fine volume,
      TEMPO_BPM the tempo, the relative commands the slot they add to, and
      every other command its own. */
  function Target(k: EventType): (t: EventType)
    requires IsChannelCmd(k)
    ensures IsChannelCmd(t)
  {
    match k
    case Vol => VolFine
    case VolRel => VolFine
    case VolFineRel => VolFine
    case TempoBpm => Tempo
    case TransposeRel => Transpose
    case _ => k
  }

  /** Read back through the getters, a channel command leaves its value in
      its target slot and marks that slot changed: the parameter for a
      setting command, the old value plus the parameter for a relative one. */
  lemma CommandReadsBack(c: Core, v: Vars, song: Song)
    requires IsChannelCmd(c.event.kind)
    ensures HandleEvent(c, v, song).Ok?
    ensures var q := HandleEvent(c, v, song).value; var t := Target(c.event.kind);
      && GetUpdateFlag(q, t) == Ok(true)
      && GetVar(q, t) == Ok(ToInt16(if c.event.kind in {VolRel, VolFineRel, TransposeRel} then Var(v, t) + c.event.param
                                    else c.event.param))
  {
    var k := c.event.kind;
    if k == Vol { VolSetsCoarseVolume(c, v, song); }
    else if k == VolRel { VolRelAddsCoarseVolume(c, v, song); }
    else if k == VolFineRel { VolFineRelSelectsFineVolume(c, v, song); }
    else if k == TempoBpm { TempoBpmSetsBpm(c, v, song); }
    else if k == TransposeRel { TransposeRelAdds(c, v, song); }
    else { GenericCommandKeepsModeBits(c, v, song); }
  }

  /** Only DRUM_MODE changes the drum-mode base: every other event keeps
      its state slot. */
  lemma OnlyDrumModeSetsDrumBase(c: Core, v: Vars, song: Song)
    ensures HandleEvent(c, v, song).Ok? ==>
              DrumBase(HandleEvent(c, v, song).value.vars) ==
                (if c.event.kind == DrumMode then ToInt16(c.event.param) else DrumBase(v))
  {
    var k := c.event.kind;
    if IsChannelCmd(k) && k != DrumMode {
      ChannelCommandKeepsDrumBase(c, v, song);
    } else if k != Note && k != Platform && k != DrumMode {
      assert HandleEvent(c, v, song) == Ok(PlayerState(c, v));
    }
  }

  /** A channel command other than DRUM_MODE writes a slot of its own. */
  lemma ChannelCommandKeepsDrumBase(c: Core, v: Vars, song: Song)
    requires IsChannelCmd(c.event.kind) && c.event.kind != DrumMode
    ensures HandleEvent(c, v, song).Ok?
    ensures DrumBase(HandleEvent(c, v, song).value.vars) == DrumBase(v)
  {
    var k := c.event.kind;
    if k == TransposeRel {
      TransposeRelAdds(c, v, song);
      SlotInjective(Transpose, DrumMode);
    } else if k in {Vol, VolRel, VolFineRel} {
      var w := HandleEvent(c, v, song).value.vars;
      assert SameExcept(v.trackState, w.trackState, Slot(VolFine)) by {
        if k == Vol { VolSetsCoarseVolume(c, v, song); }
        else if k == VolRel { VolRelAddsCoarseVolume(c, v, song); }
        else { VolFineRelSelectsFineVolume(c, v, song); }
      }
      SlotInjective(VolFine, DrumMode);
    } else if k == TempoBpm {
      TempoBpmSetsBpm(c, v, song);
      SlotInjective(Tempo, DrumMode);
    } else {
      GenericCommandKeepsModeBits(c, v, song);
      SlotInjective(k, DrumMode);
    }
  }

  /** Two sets of Player fields with the same state tables and masks; the
      skip flag and the note and rest counters may differ. */
  predicate SameTables(v: Vars, w: Vars)
  {
    && v.platformState == w.platformState && v.platformMask == w.platformMask
    && v.trackState == w.trackState && v.trackMask == w.trackMask
  }

  /** handle_event reads neither the skip flag nor the counters: on the same
      tables it fails alike, or gives the same interpreter state and tables. */
  lemma HandleEventIgnoresWrites(c: Core, v: Vars, w: Vars, song: Song)
    requires SameTables(v, w)
    ensures HandleEvent(c, v, song).Err? ==> HandleEvent(c, w, song) == Err(HandleEvent(c, v, song).error)
    ensures HandleEvent(c, v, song).Ok? ==>
              && HandleEvent(c, w, song).Ok?
              && HandleEvent(c, w, song).value.core == HandleEvent(c, v, song).value.core
              && SameTables(HandleEvent(c, v, song).value.vars, HandleEvent(c, w, song).value.vars)
  {
    var k := c.event.kind;
    if k == Note {
      NoteIgnoresWrites(c, v, w, song);
    } else if k in {TransposeRel, Vol, VolRel, VolFineRel, TempoBpm} {
      RelativeCommandIgnoresWrites(c, v, w, song);
    } else {
      OtherEventIgnoresWrites(c, v, w, song);
    }
  }

  /** A NOTE reads only the drum-mode base. */
  lemma NoteIgnoresWrites(c: Core, v: Vars, w: Vars, song: Song)
    requires SameTables(v, w) && c.event.kind == Note
    ensures HandleEvent(c, v, song).Err? ==> HandleEvent(c, w, song) == Err(HandleEvent(c, v, song).error)
    ensures HandleEvent(c, v, song).Ok? ==>
              && HandleEvent(c, w, song).Ok?
              && HandleEvent(c, w, song).value.core == HandleEvent(c, v, song).value.core
              && SameTables(HandleEvent(c, v, song).value.vars, HandleEvent(c, w, song).value.vars)
  {
    assert HandleDrumMode(c, v, song) == HandleDrumMode(c, w, song);
  }

  /** The commands with a case of their own read and write only the tables. */
  lemma RelativeCommandIgnoresWrites(c: Core, v: Vars, w: Vars, song: Song)
    requires SameTables(v, w) && c.event.kind in {TransposeRel, Vol, VolRel, VolFineRel, TempoBpm}
    ensures HandleEvent(c, v, song).Err? ==> HandleEvent(c, w, song) == Err(HandleEvent(c, v, song).error)
    ensures HandleEvent(c, v, song).Ok? ==>
              && HandleEvent(c, w, song).Ok?
              && HandleEvent(c, w, song).value.core == HandleEvent(c, v, song).value.core
              && SameTables(HandleEvent(c, v, song).value.vars, HandleEvent(c, w, song).value.vars)
  {
    if c.event.kind in {Vol, VolRel, VolFineRel} {
      VolumeCommandIgnoresWrites(c, v, w, song);
    }
  }

  /** So do the three volume commands. */
  lemma VolumeCommandIgnoresWrites(c: Core, v: Vars, w: Vars, song: Song)
    requires SameTables(v, w) && c.event.kind in {Vol, VolRel, VolFineRel}
    ensures HandleEvent(c, v, song).Err? ==> HandleEvent(c, w, song) == Err(HandleEvent(c, v, song).error)
    ensures HandleEvent(c, v, song).Ok? ==>
              && HandleEvent(c, w, song).Ok?
              && HandleEvent(c, w, song).value.core == HandleEvent(c, v, song).value.core
              && SameTables(HandleEvent(c, v, song).value.vars, HandleEvent(c, w, song).value.vars)
  {
  }

  /** PLATFORM and every other event read only the tables and the song. */
  lemma OtherEventIgnoresWrites(c: Core, v: Vars, w: Vars, song: Song)
    requires SameTables(v, w) && c.event.kind !in {Note, TransposeRel, Vol, VolRel, VolFineRel, TempoBpm}
    ensures HandleEvent(c, v, song).Err? ==> HandleEvent(c, w, song) == Err(HandleEvent(c, v, song).error)
    ensures HandleEvent(c, v, song).Ok? ==>
              && HandleEvent(c, w, song).Ok?
              && HandleEvent(c, w, song).value.core == HandleEvent(c, v, song).value.core
              && SameTables(HandleEvent(c, v, song).value.vars, HandleEvent(c, w, song).value.vars)
  {
    assert SameTables(GenericCommand(v, c.event), GenericCommand(w, c.event));
  }

  /** event_hook does the same on the same tables, whatever the skip flag
      and the counters: only what it writes differs. */
  lemma EventHookIgnoresWrites(c: Core, v: Vars, w: Vars, song: Song)
    requires SameTables(v, w)
    ensures EventHook(c, v, song).Err? ==> EventHook(c, w, song) == Err(EventHook(c, v, song).error)
    ensures EventHook(c, v, song).Ok? ==>
              && EventHook(c, w, song).Ok?
              && EventHook(c, w, song).value.core == EventHook(c, v, song).value.core
              && SameTables(EventHook(c, v, song).value.vars, EventHook(c, w, song).value.vars)
  {
    HandleEventIgnoresWrites(c, v, w, song);
  }

  /** PLATFORM succeeds exactly when the command is defined, and then changes
      nothing in the base Player. */
  lemma PlatformCommandLookup(c: Core, v: Vars, song: Song)
    requires c.event.kind == Platform
    ensures HandleEvent(c, v, song).Ok? <==> c.event.param in song.platformCommands
    ensures HandleEvent(c, v, song).Ok? ==> HandleEvent(c, v, song).value == PlayerState(c, v)
    ensures HandleEvent(c, v, song).Err? ==>
              HandleEvent(c, v, song).error == InputError(PlatformCommandUndefined(c.event.param), c.reference)
  {
  }

  /** Clearing an update flag clears that flag and no other. */
  lemma {:induction false} ClearThenGetUpdateFlag(p: PlayerState, t: EventType, u: EventType)
    requires IsChannelCmd(t) && IsChannelCmd(u)
    ensures ClearUpdateFlag(p, t).Ok?
    ensures GetUpdateFlag(ClearUpdateFlag(p, t).value, u) ==
              (if u == t then Ok(false) else GetUpdateFlag(p, u))
  {
    SlotInjective(t, u);
  }

  /** Clearing a platform flag clears that flag and no other; indexes above
      31 are ignored by both operations. */
  lemma ClearThenGetPlatformFlag(v: Vars, t: nat, u: nat)
    ensures GetPlatformFlag(ClearPlatformFlag(v, t), u) == (GetPlatformFlag(v, u) && u != t)
  {
  }

  /** Entering drum mode: the caller's return point and timing are saved in a
      new DRUM_MODE frame and play continues silently at the start of track
      base+note. */
  lemma DrumModeEnter(c: Core, v: Vars, song: Song)
    requires TopKind(c.stack) != Some(DrumModeFrame)
    requires DrumBase(v) + c.event.param in song.tracks && |c.stack| < MaxStackDepth
    ensures HandleDrumMode(c, v, song).Ok?
    ensures var d := HandleDrumMode(c, v, song).value;
      && d.stack == c.stack + [Frame(DrumModeFrame, c.track, c.position, c.onTime, c.offTime)]
      && d.track == song.tracks[DrumBase(v) + c.event.param]
      && d.position == 0 && d.onTime == 0 && d.offTime == 0
      && d.event.kind == Nop
  {
  }

  /** Drum-mode round trip: whatever the subroutine did in between, the next
      drum-mode note seen with the frame still on top restores the caller's
      on-time, off-time, position, track and stack exactly. */
  lemma {:induction false} DrumModeRoundTrip(c: Core, v: Vars, song: Song, c2: Core, v2: Vars)
    requires TopKind(c.stack) != Some(DrumModeFrame)
    requires HandleDrumMode(c, v, song).Ok?
    requires c2.stack == HandleDrumMode(c, v, song).value.stack
    ensures HandleDrumMode(c2, v2, song).Ok?
    ensures var back := HandleDrumMode(c2, v2, song).value;
      && back.onTime == c.onTime && back.offTime == c.offTime
      && back.position == c.position && back.track == c.track
      && back.stack == c.stack
  {
    DrumModeEnter(c, v, song);
    var saved := Frame(DrumModeFrame, c.track, c.position, c.onTime, c.offTime);
    assert c2.stack[|c2.stack| - 1] == saved;
    assert c2.stack[..|c2.stack| - 1] == c.stack;
  }
}
