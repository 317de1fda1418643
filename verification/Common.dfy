/**
  Value types shared by every part of the model.  Hashes, public keys and field
  elements are only ever compared by the gateway, so each is a plain integer.
 */
module Common {

  type Hash = int
  type Key = int
  type Field = int

  const U64_LIMIT: nat := 0x1_0000_0000_0000_0000

  datatype Option<+T> = None | Some(value: T) {
    function GetOr(default: T): T {
      match this
      case None => default
      case Some(v) => v
    }
  }

  /** The reasons for which a database transaction of the gateway is abandoned. */
  datatype Fault =
    | NotReady            // gateway is replaying finalized state
    | WriterBusy          // OUTER_WRITER_BUSY
    | ReservationExpired  // RESERVATION_EXPIRED
    | ReservationRequired // RESERVATION_REQUIRED
    | StaleCheckpoint     // STALE_CHECKPOINT
    | Invalid             // malformed request or payload
    | Mismatch            // stored and supplied values disagree
    | Missing             // a required row does not exist
    | Cancelled           // the guarded update matched no row
    | Reorganized         // the remote chain moved during the operation
    | FinalityConflict    // a consensus-finalized row would be undone
    | Unavailable         // the remote call failed

  datatype Result<+T> = Success(value: T) | Failure(fault: Fault) {
    predicate IsFailure() {
      Failure?
    }

    function PropagateFailure<U>(): Result<U>
      requires Failure?
    {
      Failure(fault)
    }

    function Extract(): T
      requires Success?
    {
      value
    }
  }

  function Min(a: int, b: int): int {
    if a <= b then a else b
  }

  function Reverse<T>(s: seq<T>): (r: seq<T>)
    ensures |r| == |s|
    ensures forall i :: 0 <= i < |s| ==> r[i] == s[|s| - 1 - i]
  {
    if s == [] then [] else [s[|s| - 1]] + Reverse(s[..|s| - 1])
  }
}
