/** Machine integers, optional values, results and the exceptions the Hodlcoin
    job and job manager can raise. */
module Types {

  /** An unsigned 8-bit value, one cell of a header buffer. */
  newtype byte = x: int | 0 <= x < 0x100

  /** An unsigned 32-bit value (C# `uint`). */
  newtype uint32 = x: int | 0 <= x < 0x1_0000_0000

  /** Stands in for a C# reference or nullable value that may be null. */
  datatype Option<T> = None | Some(value: T)

  /** A value, or the exception thrown instead of returning one. */
  datatype Result<T> = Ok(value: T) | Err(error: Exception)

  /** Normal completion of a `void` call, or the exception it threw. */
  datatype Outcome = Pass | Fail(error: Exception)

  /** The Stratum error code the job manager raises itself. */
  datatype StratumError = Other

  /** The exceptions that can escape the modelled operations. The last three
      are the failures `Convert.ToUInt32` documents for an unconvertible,
      out-of-range or unsupported value; the uninterpreted conversion may
      throw any exception, these included. */
  datatype Exception =
    | ArgumentException(message: string)
    | ArgumentNullException(paramName: string)
    | StratumException(code: StratumError, message: string)
    | NullReferenceException
    | FormatException
    | OverflowException
    | InvalidCastException

  /** Length of the standard Bitcoin block header written by the base job. */
  const BitcoinHeaderSize: nat := 80

  /** Length of the Hodlcoin header: the Bitcoin header plus two birthday words. */
  const HodlcoinHeaderSize: nat := 88

  /** Little-endian value of four bytes. */
  function DecodeLE32(b: seq<byte>): (v: uint32)
    requires |b| == 4
    ensures (forall i :: 0 <= i < 4 ==> b[i] == 0) <==> v == 0
  {
    (b[0] as int + 0x100 * b[1] as int + 0x1_0000 * b[2] as int + 0x100_0000 * b[3] as int) as uint32
  }
}
