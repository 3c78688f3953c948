/** Track_Validator and Song_Validator: play each track to its end, never
    looping, and measure the length of its loop section. Running to the end
    is paid for with fuel, one unit per step. */
module Validation {
  import opened Events
  import opened Errors
  import opened BasicPlayer
  import opened Validator
  import opened Interpreter

  /** A Track_Validator: the interpreter state and its own marks. */
  datatype TrackValidator = TrackValidator(core: Core, marks: Marks)

  function AsMachine(v: TrackValidator): (m: Machine)
    ensures m.core == v.core && m.mode == Validating(v.marks) && !LoopHook(m)
  {
    Machine(v.core, Validating(v.marks))
  }

  /** The loop-section length for a segno at `segno` and an end at `end`:
      none without a segno. */
  function LoopSpan(segno: int, end: int): int
  {
    if segno >= 0 then end - segno else 0
  }

  /** What a validator knows at every step: the segno, if any, is in the
      past; the loop time stays 0 while running and is the loop span once
      stopped. */
  predicate Measured(v: TrackValidator)
  {
    && v.marks.segnoTime <= v.core.playTime
    && (v.core.enabled ==> v.marks.loopTime == 0)
    && (!v.core.enabled ==> v.marks.loopTime == LoopSpan(v.marks.segnoTime, v.core.playTime))
  }

  /** step_event on a validator. */
  function Step(v: TrackValidator, song: Song): (r: Result<TrackValidator>)
    ensures r.Ok? ==> r.value.core.playTime == v.core.playTime + v.core.onTime + v.core.offTime
  {
    var m :- StepEvent(AsMachine(v), song);
    Ok(TrackValidator(m.core, m.mode.marks))
  }

  /** Only the END that stops play changes the loop time, and a SEGNO
      records the current play time. */
  lemma StepKeepsMeasured(v: TrackValidator, song: Song)
    requires Measured(v) && v.core.enabled
    ensures Step(v, song).Ok? ==> Measured(Step(v, song).value)
  {
    var b := AsMachine(v).(core := Begin(v.core));
    assert b.mode == Validating(v.marks);
    if b.core.event.kind == End {
      if |b.core.stack| == 0 {
        assert Dispatch(b, song) == Ok(Interpreter.EndHook(b.(core := b.core.(enabled := false))));
      }
    } else if b.core.event.kind == Segno {
      var s := b.(core := b.core.(loopPosition := Some(b.core.position), loopResetPosition := Some(b.core.position)));
      assert Dispatch(b, song) == Interpreter.EventHook(s, song);
    }
  }

  /** The constructor's loop: step until play stops. */
  function Run(v: TrackValidator, song: Song, fuel: nat): (r: Result<TrackValidator>)
    requires Measured(v)
    ensures r.Ok? ==> !r.value.core.enabled && Measured(r.value)
    ensures r.Ok? ==> r.value.marks.loopTime == LoopSpan(r.value.marks.segnoTime, r.value.core.playTime)
    ensures !v.core.enabled ==> r == Ok(v)
    decreases fuel
  {
    if !v.core.enabled then Ok(v)
    else if fuel == 0 then Err(NoProgress)
    else
      StepKeepsMeasured(v, song);
      var next :- Step(v, song);
      Run(next, song, fuel - 1)
  }

  /** A fresh validator for `track`. */
  function Start(track: Track): (v: TrackValidator)
    ensures Measured(v) && v.core.enabled && v.marks.segnoTime < 0
  {
    TrackValidator(Init(track), InitMarks)
  }

  /** Track_Validator's constructor: play the track to its end, failing with
      the first input error. On success the validator has stopped and its
      loop length is the time from the last segno to the end, or 0. */
  function ValidateTrack(song: Song, track: Track, fuel: nat): (r: Result<TrackValidator>)
    ensures r.Ok? ==> !r.value.core.enabled
    ensures r.Ok? && r.value.marks.segnoTime < 0 ==> GetLoopLength(r.value.marks) == 0
    ensures r.Ok? && r.value.marks.segnoTime >= 0 ==>
              r.value.marks.segnoTime <= r.value.core.playTime
              && r.value.marks.loopTime + r.value.marks.segnoTime == r.value.core.playTime
  {
    Run(Start(track), song, fuel)
  }

  /** The least of a set of track ids, given one of them. */
  method Least(s: set<int>, x: int) returns (m: int)
    requires x in s
    ensures m in s && forall y :: y in s ==> m <= y
  {
    m := x;
    var rest := s - {x};
    while true
      invariant m in s
      invariant forall y :: y in rest ==> y in s
      invariant forall y :: y in s ==> y in rest || m <= y
      decreases |rest|
    {
      if y :| y in rest {
        if y < m {
          m := y;
        }
        rest := rest - {y};
      } else {
        return;
      }
    }
  }

  /** Apply `validate` to every track in ascending id order, stopping at the
      first failure. It succeeds with one result per track exactly when
      every track validates, and otherwise fails with the error of the
      lowest-numbered failing track. */
  method ValidateAll<V>(tracks: map<int, Track>, validate: Track -> Result<V>) returns (r: Result<map<int, V>>)
    ensures r.Ok? <==> forall id :: id in tracks ==> validate(tracks[id]).Ok?
    ensures r.Ok? ==> forall id :: id in r.value <==> id in tracks
    ensures r.Ok? ==> forall id :: id in r.value ==> validate(tracks[id]) == Ok(r.value[id])
    ensures r.Err? ==>
              exists id :: && id in tracks
                           && validate(tracks[id]) == Err(r.error)
                           && forall j :: j in tracks && j < id ==> validate(tracks[j]).Ok?
  {
    var left := tracks.Keys;
    var done: map<int, V> := map[];
    while true
      invariant forall id :: id in left ==> id in tracks
      invariant forall id :: id in tracks ==> id in done || id in left
      invariant forall id :: id in done ==> id in tracks && id !in left && validate(tracks[id]) == Ok(done[id])
      invariant forall i, j :: i in done && j in left ==> i < j
      decreases |left|
    {
      if x :| x in left {
        var id := Least(left, x);
        var res := validate(tracks[id]);
        if res.Err? {
          return Err(res.error);
        }
        done := done[id := res.value];
        left := left - {id};
      } else {
        return Ok(done);
      }
    }
  }

  /** Song_Validator's constructor: one Track_Validator per track. */
  method ValidateSong(song: Song, fuel: nat) returns (r: Result<map<int, TrackValidator>>)
    ensures r.Ok? <==> forall id :: id in song.tracks ==> ValidateTrack(song, song.tracks[id], fuel).Ok?
    ensures r.Ok? ==> forall id :: id in r.value <==> id in song.tracks
    ensures r.Ok? ==> forall id :: id in r.value ==> ValidateTrack(song, song.tracks[id], fuel) == Ok(r.value[id])
    ensures r.Err? ==>
              exists id :: && id in song.tracks
                           && ValidateTrack(song, song.tracks[id], fuel) == Err(r.error)
                           && forall j :: j in song.tracks && j < id ==> ValidateTrack(song, song.tracks[j], fuel).Ok?
  {
    r := ValidateAll(song.tracks, t => ValidateTrack(song, t, fuel));
  }
}
