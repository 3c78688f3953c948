/** Events, tracks and songs: the read-only input the interpreter walks,
    together with the fixed-width integer conversions the interpreter applies. */
module Events {

  /** Event types, in the order of the interpreter's event-type enumeration.
      The note and control-flow types come first; the channel commands form
      the contiguous range [ChannelCmd, CmdCount), starting at Ins. */
  datatype EventType =
    | Note | Tie | Rest | Slur | Platform
    | LoopStart | LoopBreak | LoopEnd | Segno | Jump | End | Nop
    | Ins | Vol | VolRel | VolFine | VolFineRel | Transpose | TransposeRel
    | Detune | Pan | Vibrato | PitchEnvelope | Portamento | DrumMode | TempoBpm | Tempo

  /** The numeric value of an event type in the enumeration. */
  function Code(t: EventType): nat
  {
    match t
    case Note => 0
    case Tie => 1
    case Rest => 2
    case Slur => 3
    case Platform => 4
    case LoopStart => 5
    case LoopBreak => 6
    case LoopEnd => 7
    case Segno => 8
    case Jump => 9
    case End => 10
    case Nop => 11
    case Ins => 12
    case Vol => 13
    case VolRel => 14
    case VolFine => 15
    case VolFineRel => 16
    case Transpose => 17
    case TransposeRel => 18
    case Detune => 19
    case Pan => 20
    case Vibrato => 21
    case PitchEnvelope => 22
    case Portamento => 23
    case DrumMode => 24
    case TempoBpm => 25
    case Tempo => 26
  }

  /** The inverse of Code on the values the enumeration uses. */
  function FromCode(n: nat): (t: EventType)
    requires n < CmdCount
    ensures Code(t) == n
  {
    if n == 0 then Note else if n == 1 then Tie else if n == 2 then Rest
    else if n == 3 then Slur else if n == 4 then Platform else if n == 5 then LoopStart
    else if n == 6 then LoopBreak else if n == 7 then LoopEnd else if n == 8 then Segno
    else if n == 9 then Jump else if n == 10 then End else if n == 11 then Nop
    else if n == 12 then Ins else if n == 13 then Vol else if n == 14 then VolRel
    else if n == 15 then VolFine else if n == 16 then VolFineRel else if n == 17 then Transpose
    else if n == 18 then TransposeRel else if n == 19 then Detune else if n == 20 then Pan
    else if n == 21 then Vibrato else if n == 22 then PitchEnvelope else if n == 23 then Portamento
    else if n == 24 then DrumMode else if n == 25 then TempoBpm else Tempo
  }

  /** First channel command (CHANNEL_CMD) and one past the last (CMD_COUNT). */
  const ChannelCmd: nat := 12
  const CmdCount: nat := 27

  /** Number of slots in the per-channel state table. */
  const StateSize: nat := CmdCount - ChannelCmd

  predicate IsChannelCmd(t: EventType)
  {
    ChannelCmd <= Code(t) < CmdCount
  }

  /** Index of a channel command in the state table and in the update mask. */
  function Slot(t: EventType): (i: nat)
    requires IsChannelCmd(t)
    ensures i < StateSize
    ensures FromCode(i + ChannelCmd) == t
  {
    CodeRoundTrip(t);
    Code(t) - ChannelCmd
  }

  lemma CodeRoundTrip(t: EventType)
    ensures Code(t) < CmdCount
    ensures FromCode(Code(t)) == t
  {
  }

  /** Distinct channel commands own distinct slots. */
  lemma {:induction false} SlotInjective(s: EventType, t: EventType)
    requires IsChannelCmd(s) && IsChannelCmd(t)
    ensures Slot(s) == Slot(t) <==> s == t
  {
    CodeRoundTrip(s);
    CodeRoundTrip(t);
  }

  /** A 16-bit signed value, the width of the state-table slots. */
  type I16 = x: int | -0x8000 <= x < 0x8000

  /** Conversion of an int to int16_t: wrap modulo 2^16. */
  function ToInt16(x: int): (r: I16)
    ensures (r - x) % 0x1_0000 == 0
    ensures -0x8000 <= x < 0x8000 ==> r == x
  {
    (x + 0x8000) % 0x1_0000 - 0x8000
  }

  /** An unsigned 32-bit tick count. */
  type Ticks = x: int | 0 <= x < 0x1_0000_0000

  /** Conversion of an int to unsigned int: wrap modulo 2^32. */
  function ToUint32(x: int): (r: Ticks)
    ensures (r - x) % 0x1_0000_0000 == 0
    ensures 0 <= x < 0x1_0000_0000 ==> r == x
  {
    x % 0x1_0000_0000
  }

  /** One parsed event. `ref` stands for the source reference used in diagnostics. */
  datatype Event = Event(kind: EventType, param: int, onTime: Ticks, offTime: Ticks, ref: nat)

  /** A track is an ordered, randomly indexable sequence of events. */
  type Track = seq<Event>

  /** A song owns its tracks by id and the ids of its defined platform commands
      (the contents of those commands are not modelled). */
  datatype Song = Song(tracks: map<int, Track>, platformCommands: set<int>)
}
