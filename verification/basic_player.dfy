/** The state of the generic control-flow interpreter (Basic_Player), its
    loop counters and the common first half of one step. */
module BasicPlayer {
  import opened Events
  import opened Errors
  import opened Stack

  /** Basic_Player's fields. `track` is the track being played (held by
      value: tracks never change once parsed). `loopPosition` is the segno
      restart point and `loopResetPosition` the point at which a provisional
      loop count is confirmed; None stands for the source's -1. */
  datatype Core = Core(
    track: Track,
    enabled: bool,
    position: nat,
    loopPosition: Option<nat>,
    loopResetPosition: Option<nat>,
    stack: seq<Frame>,
    loopCount: nat,
    loopResetCount: nat,
    playTime: nat,
    onTime: Ticks,
    offTime: Ticks,
    event: Event,
    reference: nat)

  /** A fresh player at the start of `track`. */
  function Init(track: Track): (c: Core)
    ensures c.track == track
    ensures c.enabled && c.position == 0 && c.stack == []
    ensures c.loopPosition.None? && c.loopResetPosition.None?
    ensures c.loopCount == 0 && c.loopResetCount == 0
    ensures c.playTime == 0 && c.onTime == 0 && c.offTime == 0
  {
    Core(track, true, 0, None, None, [], 0, 0, 0, 0, 0, Event(Nop, 0, 0, 0, 0), 0)
  }

  /** r agrees with c on everything the loop machinery and the enable flag
      depend on: only control-flow events change these. */
  predicate SameLoopState(c: Core, r: Core)
  {
    && r.enabled == c.enabled
    && r.loopPosition == c.loopPosition && r.loopResetPosition == c.loopResetPosition
    && r.loopCount == c.loopCount && r.loopResetCount == c.loopResetCount
  }

  /** The confirmed loop count never exceeds the raw restart count. */
  predicate CountsOrdered(c: Core)
  {
    c.loopResetCount <= c.loopCount
  }

  /** The loop count reported to callers: the smaller of the two counters. */
  function GetLoopCount(c: Core): (n: nat)
    ensures n <= c.loopCount && n <= c.loopResetCount
    ensures n == c.loopCount || n == c.loopResetCount
  {
    if c.loopResetCount < c.loopCount then c.loopResetCount else c.loopCount
  }

  /** In every state the interpreter reaches, the reported count is the
      confirmed one. */
  lemma ReportedCountIsConfirmed(c: Core)
    requires CountsOrdered(c)
    ensures GetLoopCount(c) == c.loopResetCount
  {
  }

  /** Clear both counters and re-anchor the confirmation point one position
      behind the current one (0 at the start of a track). */
  function ResetLoopCount(c: Core): (r: Core)
    ensures r.loopCount == 0 && r.loopResetCount == 0 && GetLoopCount(r) == 0
    ensures r.loopResetPosition.Some?
    ensures c.position > 0 ==> r.loopResetPosition.value + 1 == c.position
    ensures c.position == 0 ==> r.loopResetPosition.value == 0
    ensures r == c.(loopCount := 0, loopResetCount := 0, loopResetPosition := r.loopResetPosition)
  {
    c.(loopCount := 0, loopResetCount := 0,
       loopResetPosition := Some(if c.position > 0 then c.position - 1 else 0))
  }

  /** The event a step reads: the one at the current position, or a
      synthesized END once the position is past the end of the track. */
  function CurrentEvent(c: Core): (e: Event)
    ensures c.position >= |c.track| ==> e == Event(End, 0, 0, 0, c.reference)
    ensures c.position < |c.track| ==> e == c.track[c.position]
  {
    if c.position < |c.track| then c.track[c.position] else Event(End, 0, 0, 0, c.reference)
  }

  /** The first half of step_event: bank the pending on/off time into the
      play time, confirm the provisional loop count when the confirmation
      point is reached, read the next event and take over its timing and
      reference. The position advances even past the end of the track. */
  function Begin(c: Core): (r: Core)
    ensures r.playTime == c.playTime + c.onTime + c.offTime
    ensures r.position == c.position + 1
    ensures r.event == CurrentEvent(c)
    ensures r.onTime == r.event.onTime && r.offTime == r.event.offTime && r.reference == r.event.ref
    ensures r.loopResetCount == (if c.loopResetPosition == Some(c.position) then c.loopCount else c.loopResetCount)
    ensures r.track == c.track && r.stack == c.stack && r.enabled == c.enabled && r.loopCount == c.loopCount
    ensures r.loopPosition == c.loopPosition && r.loopResetPosition == c.loopResetPosition
  {
    var resetCount := if c.loopResetPosition == Some(c.position) then c.loopCount else c.loopResetCount;
    var e := CurrentEvent(c);
    c.(playTime := c.playTime + c.onTime + c.offTime,
       loopResetCount := resetCount,
       position := c.position + 1,
       event := e,
       onTime := e.onTime,
       offTime := e.offTime,
       reference := e.ref)
  }

  /** Begin keeps the counters ordered. */
  lemma BeginKeepsCountsOrdered(c: Core)
    requires CountsOrdered(c)
    ensures CountsOrdered(Begin(c))
  {
  }
}
