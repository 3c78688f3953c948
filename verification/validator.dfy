/** The hooks of Track_Validator: record when SEGNO is seen, never loop, and
    compute the length of the loop section at the end. */
module Validator {
  import opened Events
  import opened BasicPlayer

  /** Track_Validator's own fields: the play time of the last SEGNO (-1 for
      none) and the loop-section length. */
  datatype Marks = Marks(segnoTime: int, loopTime: int)

  const InitMarks: Marks := Marks(-1, 0)

  /** event_hook: record the play time of a SEGNO event. */
  function EventHook(c: Core, w: Marks): (r: Marks)
    ensures c.event.kind == Segno ==> r == w.(segnoTime := c.playTime)
    ensures c.event.kind != Segno ==> r == w
  {
    if c.event.kind == Segno then w.(segnoTime := c.playTime) else w
  }

  /** end_hook: the loop section runs from the last SEGNO to the end. */
  function EndHook(c: Core, w: Marks): (r: Marks)
    ensures r.segnoTime == w.segnoTime
    ensures w.segnoTime >= 0 ==> r.loopTime + w.segnoTime == c.playTime
    ensures w.segnoTime < 0 ==> r.loopTime == w.loopTime
  {
    if w.segnoTime >= 0 then w.(loopTime := c.playTime - w.segnoTime) else w
  }

  /** get_loop_length: the loop time as an unsigned 32-bit value. */
  function GetLoopLength(w: Marks): (r: Ticks)
    ensures 0 <= w.loopTime < 0x1_0000_0000 ==> r == w.loopTime
  {
    ToUint32(w.loopTime)
  }
}
