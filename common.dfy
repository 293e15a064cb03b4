/** Shared vocabulary: fixed-width integers, the exceptions the commands
    raise, failure-carrying result types and the command life-cycle. */
module Common {

  /** .NET `int` (System.Int32). */
  type Int32 = x: int | -0x8000_0000 <= x < 0x8000_0000

  /** .NET `uint` (System.UInt32). */
  type UInt32 = x: int | 0 <= x < 0x1_0000_0000

  /** `uint.MaxValue`. */
  const UInt32Max: UInt32 := 0xFFFF_FFFF

  /** The unchecked cast `(uint)x` of an `int`: two's-complement wrap-around. */
  function ToUInt32(x: Int32): (r: UInt32)
    ensures 0 <= x ==> r == x
    ensures x < 0 ==> r == x + 0x1_0000_0000
  {
    x % 0x1_0000_0000
  }

  /** The exceptions the modelled code raises, with the message it attaches. */
  datatype Exception =
    | NullReference
    | InvalidOperation(message: string)
    | NotSupported(message: string)
    | Win32(errorCode: int, message: string)
    | SyntaxError
    | FormatError
    | Overflow
    | ManagementError
    | ObjectDisposed

  /** A reference that may be null. */
  datatype Option<T> = None | Some(value: T) {
    function GetOr(default: T): T {
      match this
      case Some(v) => v
      case None => default
    }
  }

  /** A value, or the exception that was raised instead. */
  datatype Result<T> = Ok(value: T) | Err(error: Exception)

  /** Normal completion of a `void` member, or the exception it raised. */
  datatype Outcome = Pass | Fail(error: Exception)

  /** Proof helper, not part of the model: concatenation regroups freely. */
  lemma AppendAssoc<T>(a: seq<T>, b: seq<T>, c: seq<T>)
    ensures (a + b) + c == a + (b + c)
  {
  }

  /** Proof helper, not part of the model: two pairs, with or without one
      item between them, joined. */
  lemma JoinPairs<T>(a: T, b: T, middle: seq<T>, c: T, d: T)
    requires |middle| <= 1
    ensures middle == [] ==> [a, b] + middle + [c, d] == [a, b, c, d]
    ensures middle != [] ==> [a, b] + middle + [c, d] == [a, b, middle[0], c, d]
  {
  }

  /** Proof helper, not part of the model: a pair followed by one more item. */
  lemma PairThenOne<T>(a: T, b: T, c: T)
    ensures [a, b] + [c] == [a, b, c]
  {
  }

  /** The life-cycle of one command invocation. */
  datatype CommandState = NotStarted | Running | Completed | Faulted
}
