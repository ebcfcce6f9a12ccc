/** Provider-neutral stock arithmetic: src/domain/inventory.py. */
module Inventory {
  import opened Basics

  datatype StockState = StockState(tracked: bool, onHand: int, reserved: int, revision: int)
  {
    /** What the dataclass constructor enforces on every value. */
    predicate Valid() {
      0 <= reserved <= onHand && revision > 0
    }

    function Available(): int {
      onHand - reserved
    }
  }

  datatype MovementKind = AdjustMove | ReserveMove | CommitMove | ReleaseMove

  /** StockState.adjust, reserve, commit and release; None where the source raises ValueError. */
  function Move(s: StockState, kind: MovementKind, amount: int): (r: Option<StockState>)
    ensures r.Some? && s.Valid() ==> r.value.Valid() && r.value.tracked && r.value.revision == s.revision + 1
  {
    if !s.tracked then None else
    match kind
    case AdjustMove =>
      if amount == 0 || s.onHand + amount < s.reserved then None
      else Some(s.(onHand := s.onHand + amount, revision := s.revision + 1))
    case ReserveMove =>
      if amount <= 0 || amount > s.Available() then None
      else Some(s.(reserved := s.reserved + amount, revision := s.revision + 1))
    case CommitMove =>
      if amount <= 0 || amount > s.reserved then None
      else Some(s.(onHand := s.onHand - amount, reserved := s.reserved - amount, revision := s.revision + 1))
    case ReleaseMove =>
      if amount <= 0 || amount > s.reserved then None
      else Some(s.(reserved := s.reserved - amount, revision := s.revision + 1))
  }

  /** The three signed deltas that the storage layer writes beside a movement of each kind. */
  datatype Deltas = Deltas(onHand: int, reserved: int, available: int)

  function DeltasOf(kind: MovementKind, amount: int): Deltas {
    match kind
    case AdjustMove => Deltas(amount, 0, amount)
    case ReserveMove => Deltas(0, amount, -amount)
    case CommitMove => Deltas(-amount, -amount, 0)
    case ReleaseMove => Deltas(0, -amount, amount)
  }

  /** A hold is undone exactly by a release, and a commit is a release followed by a sale. */
  lemma HoldThenFinish(s: StockState, amount: int)
    requires s.Valid() && Move(s, ReserveMove, amount).Some?
    ensures var held := Move(s, ReserveMove, amount).value;
            && Move(held, ReleaseMove, amount) == Some(s.(revision := s.revision + 2))
            && Move(held, CommitMove, amount) == Some(s.(onHand := s.onHand - amount, revision := s.revision + 2))
            && forall more :: more > s.Available() - amount ==> Move(held, ReserveMove, more).None?
  {
  }

  datatype Timing = Timing(createdAt: nat, checkoutExpiresAt: nat, reconcileAfter: nat)

  function ReservationTiming(createdAt: nat): Timing {
    Timing(createdAt, createdAt + CHECKOUT_EXPIRY_SECONDS,
           createdAt + CHECKOUT_EXPIRY_SECONDS + RECONCILIATION_GRACE_SECONDS)
  }
}
