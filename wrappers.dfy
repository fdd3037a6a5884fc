/**
 * Values shared by the whole model: `Option`, the `Result` of an operation that
 * returns `(value, error)` in Go, the errors the provider produces or inspects,
 * and Go's fixed-width integer types.
 */
module Wrappers {

  datatype Option<T> = None | Some(value: T)

  /**
   * The libvirt error numbers the provider inspects (ERR_NO_SUPPORT = 3,
   * ERR_INVALID_ARG = 8, ERR_NO_DOMAIN = 42, ERR_NO_NETWORK = 43,
   * ERR_NO_STORAGE_POOL = 49, ERR_NO_STORAGE_VOL = 50,
   * ERR_OPERATION_INVALID = 55); every other number is `OtherCode`.
   */
  datatype ErrorCode = NoSupport | InvalidArg | NoDomain | NoNetwork | NoStoragePool
                     | NoStorageVol | OperationInvalid | OtherCode

  /** The libvirt error domain; only VIR_FROM_NETWORK (19) is ever inspected. */
  datatype ErrorDomain = FromNetwork | FromOther

  /**
   * An error value.
   *   Virt      a `libvirt.Error` returned by a hypervisor call;
   *   Fail      an `errors.New`/`fmt.Errorf` error that wraps nothing;
   *   Wrap      `fmt.Errorf("<context>: %v", cause)`;
   *   Follow    `fmt.Errorf("<context> %v", cause)`, a context written without a colon;
   *   ConnIsNil, DomainNotFound, VolumeNotFound  the package-level sentinels
   *             `ErrLibVirtConIsNil`, `ErrDomainNotFound`, `ErrVolumeNotFound`;
   *   Panic     a run-time panic of the Go code (an index out of range).
   */
  datatype Error =
    | Virt(code: ErrorCode, domain: ErrorDomain)
    | Fail(text: string)
    | Wrap(context: string, cause: Error)
    | Follow(context: string, cause: Error)
    | ConnIsNil
    | DomainNotFound
    | VolumeNotFound
    | Panic(reason: string)

  datatype Result<T> = Ok(value: T) | Err(error: Error)
  {
    predicate IsFailure() { Err? }
    function PropagateFailure<U>(): Result<U> requires Err? { Err(error) }
    function Extract(): T requires Ok? { value }
  }

  /** `err == nil` is `None`. */
  type Outcome = Option<Error>

  /** The text `err.Error()` gives for a sentinel or a message error. */
  function Message(e: Error): (m: string)
    ensures e.Fail? ==> m == e.text
  {
    match e
    case Virt(_, _) => "libvirt error"
    case Fail(t) => t
    case Wrap(c, cause) => c + ": " + Message(cause)
    case Follow(c, cause) => c + " " + Message(cause)
    case ConnIsNil => "the libvirt connection was nil"
    case DomainNotFound => "Domain not found"
    case VolumeNotFound => "Domain not found"
    case Panic(r) => "runtime error: " + r
  }


  // ----- Go's fixed-width integers -----

  const TwoTo63: int := 0x8000_0000_0000_0000
  const TwoTo64: int := 0x1_0000_0000_0000_0000

  type byte = x: int | 0 <= x < 256
  type int64 = x: int | -TwoTo63 <= x < TwoTo63
  type uint64 = x: int | 0 <= x < TwoTo64

  /** Go's conversion `uint64(x)` (and `uint(x)` on a 64-bit platform): wrap modulo 2^64. */
  function ToUint64(x: int): (r: uint64)
    ensures 0 <= x < TwoTo64 ==> r == x
    ensures -TwoTo64 <= x < 0 ==> r == x + TwoTo64
  {
    x % TwoTo64
  }

  /** Go's conversion `int(x)` of a `uint64` on a 64-bit platform: two's complement. */
  function ToInt64(x: uint64): (r: int64)
    ensures x < TwoTo63 ==> r == x
    ensures x >= TwoTo63 ==> r == x - TwoTo64
    ensures ToUint64(r) == x
  {
    if x < TwoTo63 then x else x - TwoTo64
  }
}
