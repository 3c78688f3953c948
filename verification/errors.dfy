/** The interpreter's failures. Every failure of the source is a thrown
    input error carrying a message and the reference of the event being
    played; here the message becomes an ErrorKind. */
module Errors {

  datatype ErrorKind =
    | UnterminatedLoop                      // "unterminated '[]' loop"
    | UnexpectedLoopEnd                     // "unexpected ']' loop end"
    | DrumRoutineNoNote                     // "drum routine contains no note"
    | StackOverflow                         // "stack overflow (depth limit reached)"
    | JumpDestinationMissing                // "jump destination doesn't exist"
    | PlatformCommandUndefined(id: int)     // "Platform command %d is not defined"
    | DrumModeTrackUndefined(track: int, base: int, note: int)
                                            // "drum mode error: track *%d is not defined (base %d, note %d)"
    | UnsupportedEventType                  // "BUG: Unsupported event type"

  /** An input error, or NoProgress: the fuel given to a loop whose
      termination is not proved here was used up. */
  datatype Error = InputError(kind: ErrorKind, ref: nat) | NoProgress

  datatype Result<+T> = Ok(value: T) | Err(error: Error)
  {
    predicate IsFailure()
    {
      Err?
    }

    function PropagateFailure<U>(): Result<U>
      requires Err?
    {
      Err(error)
    }

    function Extract(): T
      requires Ok?
    {
      value
    }
  }

  datatype Option<+T> = None | Some(value: T)
}
