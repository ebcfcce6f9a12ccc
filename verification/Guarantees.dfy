/** What holds of the store in every reachable state, and between any two moments of a run. */
module Guarantees {
  import opened Basics
  import opened Records
  import opened Ledger
  import opened Protocol
  import opened Runs

  // ----- the stock ledger -----

  /**
   * After any interleaving of operations, a stock's reserved count is what the live reservations hold of it,
   * its three counts are the sums of its movement log, and it is never oversold.
   */
  lemma StockLedger(ops: seq<Op>, x: Target)
    ensures var t := Run(ops).tables;
      match StockAt(t, x)
      case None =>
        Total(Allocated(x), t) == 0 == Total(MovedOnHand(x), t) == Total(MovedReserved(x), t) == Total(MovedAvailable(x), t)
      case Some(s) =>
        && s.state.reserved == Total(Allocated(x), t) == Total(MovedReserved(x), t)
        && s.state.onHand == Total(MovedOnHand(x), t)
        && s.available == Total(MovedAvailable(x), t) == s.state.onHand - s.state.reserved
        && s.state.tracked && 0 <= s.state.reserved <= s.state.onHand
  {
    RunKeeps(ops);
    var t := Run(ops).tables;
    assert LedgerAt(t, x);
    assert Sound(t, StockKey(x.pk, x.location, x.stock));
  }

  // ----- the joint state of a reservation, its order, its marker and its fiscal access -----

  ghost predicate JointlySound(t: Tables, pk: Partition, rid: Id, r: ReservationRec) {
    && var ok := OrderKey(pk, r.order);
    && ok in t && t[ok].OrderItem? && t[ok].order.reservation == rid && t[ok].order.attempt == r.attempt
    && (r.status == Reserved <==> t[ok].order.status == PendingCheckout)
    && (r.status == Committed <==> t[ok].order.status in {Paid, Refunded})
    && (r.status == Released <==> t[ok].order.status == PaymentNotCompleted)
    && (r.status == Committed ==> r.reason == Some(CanonicalPaid))
    && (r.status == Released ==> r.reason.Some? && r.reason != Some(CanonicalPaid))
    && (r.status != Reserved ==> r.completedAt.Some? && t[ok].order.completedAt == r.completedAt && t[ok].order.reason == r.reason)
    && (forall epoch :: DueKey(pk, epoch, rid) in t <==> r.status == Reserved && epoch == r.dueEpoch)
    && var ak := AccessKey(pk, r.order);
    && (ak in t && t[ak].AccessItem? && t[ak].access.state in {Eligible, Consumed} ==> r.status == Committed)
    && (ak in t && t[ak].AccessItem? && t[ak].access.state == Ineligible ==> r.status == Released)
  }

  /**
   * A reservation is held exactly while its order is pending and exactly one due marker, the one at its due key,
   * exists; it is committed, because it was paid, or released, because it was not, exactly when its order says so, and a
   * fiscal access agrees with both.
   */
  lemma JointState(ops: seq<Op>, pk: Partition, rid: Id)
    requires ReservationKey(pk, rid) in Run(ops).tables
    ensures var t := Run(ops).tables;
      t[ReservationKey(pk, rid)].ReservationItem? && JointlySound(t, pk, rid, t[ReservationKey(pk, rid)].reservation)
  {
    var t, rk := Run(ops).tables, ReservationKey(pk, rid);
    SoundAt(ops, rk);
    var r := t[rk].reservation;
    SoundAt(ops, OrderKey(pk, r.order));
    SoundAt(ops, AccessKey(pk, r.order));
    forall epoch ensures DueKey(pk, epoch, rid) in t <==> r.status == Reserved && epoch == r.dueEpoch {
      SoundAt(ops, DueKey(pk, epoch, rid));
    }
  }

  /** The other way round: no order, marker or payment binding stands without its reservation. */
  lemma NothingDangles(ops: seq<Op>, k: Key)
    requires k in Run(ops).tables
    ensures var t := Run(ops).tables;
      && (k.OrderKey? ==>
            && t[k].OrderItem?
            && var rk := ReservationKey(k.pk, t[k].order.reservation);
               rk in t && t[rk].ReservationItem? && t[rk].reservation.order == k.order)
      && (k.DueKey? ==> ReservationKey(k.pk, k.reservation) in t)
      && (k.BindingKey? ==>
            && t[k].BindingItem?
            && var rk := ReservationKey(k.pk, t[k].binding.reservation);
               rk in t && t[rk].ReservationItem? && t[rk].reservation.attempt == k.attempt)
      && (k.AccessKey? ==> OrderKey(k.pk, k.order) in t)
      && (k.RefundKey? ==>
            && t[k].RefundItem? && t[k].refund.result.RefundOutcome?
            && var ok := OrderKey(k.pk, t[k].refund.result.order);
               ok in t && t[ok].OrderItem? && t[ok].order.status == Refunded && t[ok].order.refund == Some(k.refund))
      && (k.MovementKey? ==> ReceiptKey(k.pk, k.receipt) in t)
  {
    RunKeeps(ops);
    var t := Run(ops).tables;
    assert Sound(t, k);
    if k.RefundKey? { assert Sound(t, OrderKey(k.pk, t[k].refund.result.order)); }
  }

  /** A reservation that has ended is never written again. */
  lemma TerminalIsFinal(ops: seq<Op>, more: seq<Op>, pk: Partition, rid: Id)
    requires var t, rk := Run(ops).tables, ReservationKey(pk, rid);
      rk in t && t[rk].ReservationItem? && t[rk].reservation.status != Reserved
    ensures var rk := ReservationKey(pk, rid);
      rk in Run(ops + more).tables && Run(ops + more).tables[rk] == Run(ops).tables[rk]
  {
    RunAdvances(ops, more);
    var rk := ReservationKey(pk, rid);
    assert Stays(Run(ops).tables[rk], Run(ops + more).tables[rk]);
  }

  /** What was reserved, for whom and when never changes, and deferrals only move forward. */
  lemma ReservationKeepsIdentity(ops: seq<Op>, more: seq<Op>, pk: Partition, rid: Id)
    requires ReservationKey(pk, rid) in Run(ops).tables
    ensures var rk := ReservationKey(pk, rid);
      var t, u := Run(ops).tables, Run(ops + more).tables;
      && rk in u && t[rk].ReservationItem? && u[rk].ReservationItem?
      && var a, b := t[rk].reservation, u[rk].reservation;
         SameIdentity(a, b) && a.reconcileAfter <= b.reconcileAfter && (a == b || a.revision < b.revision)
  {
    RunKeeps(ops);
    RunAdvances(ops, more);
    var rk := ReservationKey(pk, rid);
    assert Sound(Run(ops).tables, rk);
    assert Stays(Run(ops).tables[rk], Run(ops + more).tables[rk]);
  }

  /** No order is refunded more than it costs: every recorded refund gives back a part of its order, in its currency. */
  lemma RefundsAreCovered(ops: seq<Op>, pk: Partition, id: Id)
    requires RefundKey(pk, id) in Run(ops).tables
    ensures var t, fk := Run(ops).tables, RefundKey(pk, id);
      && t[fk].RefundItem? && t[fk].refund.result.RefundOutcome? && t[fk].refund.result.refund == id
      && var x := t[fk].refund.result;
      && OrderKey(pk, x.order) in t && t[OrderKey(pk, x.order)].OrderItem?
      && var o := t[OrderKey(pk, x.order)].order;
         o.status == Refunded && o.refund == Some(id) && 0 < x.amountMinor <= o.amountMinor && x.currency == o.currency
  {
    SoundAt(ops, RefundKey(pk, id));
    SoundAt(ops, OrderKey(pk, Run(ops).tables[RefundKey(pk, id)].refund.result.order));
  }

  /**
   * A notification in the outbox stands beside its event, and beside its order: it goes to the target that the order pins,
   * which asks to hear of a payment of that kind, and names what the order costs.
   */
  lemma MessagesAreWanted(ops: seq<Op>, pk: Partition, m: OutboxId)
    requires OutboxKey(pk, m) in Run(ops).tables
    ensures var t, ik, ok := Run(ops).tables, InboxKey(pk, m.event), OrderKey(pk, m.order);
      && ik in t && t[ik].InboxItem? && t[ik].inbox.hash.PaymentHash? && t[ik].inbox.hash.payment.kind == m.kind
      && ok in t && t[ok].OrderItem?
      && var o := t[ok].order;
      && o.notify == Some(m.target) && (m.kind == Succeeded ==> m.target.onSuccess) && (m.kind == TerminalUnpaid ==> m.target.onFailure)
      && m.amountMinor == o.amountMinor && m.currency == o.currency
  {
    SoundAt(ops, OutboxKey(pk, m));
  }

  // ----- due markers -----

  /** A due marker that is gone never comes back: marker keys are not reused. */
  lemma MarkerNeverReturns(ops: seq<Op>, more: seq<Op>, yet: seq<Op>, k: Key)
    requires k.DueKey? && k in Run(ops).tables && k !in Run(ops + more).tables
    ensures k !in Run(ops + more + yet).tables
  {
    RunKeeps(ops);
    RunAdvances(ops, more);
    RunAdvances(ops + more, yet);
    assert Sound(Run(ops).tables, k);
    MarkerGone(Run(ops).tables, Run(ops + more).tables, Run(ops + more + yet).tables, k);
  }

  lemma MarkerGone(t: Tables, u: Tables, v: Tables, k: Key)
    requires k.DueKey? && k in t && Sound(t, k) && k !in u
    requires Advances(t, u) && Advances(u, v)
    ensures k !in v
  {
    var rk := ReservationKey(k.pk, k.reservation);
    assert Stays(t[rk], u[rk]);
    assert !MarkerFresh(u, k);
  }

  // ----- fiscal claims -----

  /** At most one fiscal request per order, under a consumed access record that names it, in at most five attempts. */
  lemma FiscalSingleUse(ops: seq<Op>, pk: Partition, a: FiscalId, b: FiscalId)
    requires FiscalRequestKey(pk, a) in Run(ops).tables && FiscalRequestKey(pk, b) in Run(ops).tables && a.order == b.order
    ensures a == b
    ensures var t, ak := Run(ops).tables, AccessKey(pk, a.order);
      && ak in t && t[ak].AccessItem? && t[ak].access.state == Consumed && t[ak].access.request == Some(a)
      && 0 <= t[ak].access.attempts <= MAX_CLAIM_ATTEMPTS
  {
    RunKeeps(ops);
    var t := Run(ops).tables;
    assert Sound(t, FiscalRequestKey(pk, a)) && Sound(t, FiscalRequestKey(pk, b)) && Sound(t, AccessKey(pk, a.order));
  }

  /** A consumed access always has its request: no claim is spent without one. */
  lemma ConsumedHasRequest(ops: seq<Op>, pk: Partition, oid: Id)
    requires var t, ak := Run(ops).tables, AccessKey(pk, oid);
      ak in t && t[ak].AccessItem? && t[ak].access.state == Consumed
    ensures var t, ak := Run(ops).tables, AccessKey(pk, oid);
      && t[ak].access.request.Some?
      && var fk := FiscalRequestKey(pk, t[ak].access.request.value);
         fk in t && t[fk].FiscalRequestItem? && t[fk].fiscal.order == fk.request.order
  {
    RunKeeps(ops);
    var t, ak := Run(ops).tables, AccessKey(pk, oid);
    assert Sound(t, ak);
    assert Sound(t, FiscalRequestKey(pk, t[ak].access.request.value));
  }

  /** Attempts never run past five, in any state of the access. */
  lemma AttemptsBounded(ops: seq<Op>, pk: Partition, oid: Id)
    requires AccessKey(pk, oid) in Run(ops).tables
    ensures var t, ak := Run(ops).tables, AccessKey(pk, oid);
      t[ak].AccessItem? && 0 <= t[ak].access.attempts <= MAX_CLAIM_ATTEMPTS
  {
    RunKeeps(ops);
    assert Sound(Run(ops).tables, AccessKey(pk, oid));
  }

  /** The proof is frozen once the access leaves pending payment, and attempts are never taken back. */
  lemma ProofFrozen(ops: seq<Op>, more: seq<Op>, pk: Partition, oid: Id)
    requires AccessKey(pk, oid) in Run(ops).tables
    ensures var ak := AccessKey(pk, oid);
      var t, u := Run(ops).tables, Run(ops + more).tables;
      && ak in u && t[ak].AccessItem? && u[ak].AccessItem?
      && var a, b := t[ak].access, u[ak].access;
      && (a.state != PendingPayment ==> b.proof == a.proof && b.state != PendingPayment)
      && (a.state in {Ineligible, Consumed} ==> a == b)
      && a.attempts <= b.attempts
  {
    var ak := AccessKey(pk, oid);
    SoundAt(ops, ak);
    RunAdvances(ops, more);
    assert Stays(Run(ops).tables[ak], Run(ops + more).tables[ak]);
  }
}
