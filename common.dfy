/** Types shared by every module of the model: Go's `error` returns, bytes and
    wall-clock time. */
module Common {

  /** A Go `error` value. Errors created by the modelled code carry the message
      it passes to `errors.New`; errors that come from a collaborator carry
      whatever text that collaborator gave. */
  datatype Error = Error(msg: string)

  datatype Option<+T> = None | Some(value: T)

  /** The `(value, error)` pair of a Go function: exactly one side is present. */
  datatype Result<+T> = Ok(value: T) | Fail(err: Error) {
    predicate IsFailure() { Fail? }
    function PropagateFailure<U>(): Result<U> requires Fail? { Fail(err) }
    function Extract(): T requires Ok? { value }
  }

  newtype byte = x: int | 0 <= x < 256

  /** Go's `time.Time`, reduced to what the core uses: the zero value
      `time.Time{}` and an instant given in nanoseconds on the wall clock. */
  datatype Time = Zero | Instant(nanos: int)

  /** `time.Duration` is a count of nanoseconds. */
  const Minute: int := 60 * 1000 * 1000 * 1000

  /** `strings.Contains(s, string(c))` for a one-character needle. */
  predicate ContainsChar(s: string, c: char) { c in s }

  /** `strings.HasPrefix(s, p)`. */
  predicate HasPrefix(s: string, p: string) { |p| <= |s| && s[..|p|] == p }

  /** `%d` formatting of an integer. */
  function Decimal(n: int): (s: string)
    ensures |s| >= 1
    decreases if n < 0 then 1 - n else n
  {
    if n < 0 then "-" + Decimal(-n)
    else if n < 10 then ["0123456789"[n]]
    else Decimal(n / 10) + ["0123456789"[n % 10]]
  }

  /** One AES block: the IV length the CFB and CTR modes require. */
  const IvSize: nat := 16
  /** An AES-256 key, the size the core generates and derives. */
  const KeySize: nat := 32

  /** `aes.NewCipher` accepts 16, 24 and 32-byte keys. */
  predicate AesKeySize<T>(key: seq<T>) { |key| == 16 || |key| == 24 || |key| == 32 }

  /** The error `aes.NewCipher` returns for a key of `n` bytes, an
      `aes.KeySizeError`, which prints its size. */
  function KeySizeError(n: int): Error
  {
    Error("crypto/aes: invalid key size " + Decimal(n))
  }
}
