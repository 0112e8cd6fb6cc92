/** What returns, operators' decisions, disputes, device reports and callbacks do to the tables: which requests are
    accepted, what each column holds afterwards, and that nothing else changes. */
module Operations {
  import opened Fees
  import opened Models
  import opened Transactions
  import opened Handlers
  import opened Lifecycle
  import opened Compensation
  import opened Returns
  import opened Effects

  /** Order oid becomes o and its user is paid; no other order and no other user changes. */
  ghost predicate Rewrites(db: Db, db': Db, oid: nat, o: Order, paid: nat) {
    && oid < |db.orders| && o.user < |db.users|
    && db'.orders == db.orders[oid := o]
    && db'.users == db.users[o.user := db.users[o.user].(balance := db.users[o.user].balance + paid)]
  }

  // ---------- returns ----------

  /** An automatic return is accepted if the slot and the battery are known and the battery is out under an order that
      has not been returned before; an order that is already returning is acknowledged and nothing is written. */
  lemma DetectAcceptedIff(db: Db, cab: nat, slotNo: nat, b: nat, soc: int, tempOk: bool, now: int)
    requires Linked(db)
    ensures var r := Attempt(db, DoDetect(cab, slotNo, b, soc, tempOk, now));
            && (r.Some? <==> && b < |db.batteries| && (exists k: nat :: SlotAt(db.slots, cab, slotNo, k))
                             && exists oid: nat :: OutUnder(db.orders, b, oid)
                                                   && (db.orders[oid].status == Returning || oid !in db.returned))
            && forall oid: nat :: r.Some? && OutUnder(db.orders, b, oid) && db.orders[oid].status == Returning ==>
                 r.value == db
  {
    SlotIsAt(db.slots, cab, slotNo);
    RentalIsOut(db.orders, b);
    var found := LatestRental(db.orders, b);
    if found.Some? { assert OrderLinked(db, db.orders[found.value]); }
  }

  lemma ManualAcceptedIff(db: Db, oid: nat, cab: nat, slotNo: nat, now: int)
    requires Linked(db)
    ensures Attempt(db, DoManual(oid, cab, slotNo, now)).Some?
            <==> && oid < |db.orders| && db.orders[oid].status == Renting && oid !in db.returned
                 && exists k: nat :: SlotAt(db.slots, cab, slotNo, k) && db.slots[k].status != Occupied
  {
    SlotIsAt(db.slots, cab, slotNo);
    if oid < |db.orders| { assert OrderLinked(db, db.orders[oid]); }
  }

  /** The battery is in slot k, the order has the slot and the return's columns, the return record says the same, and
      nothing else has changed. */
  ghost predicate Rebound(db: Db, end: Db, a: Action, oid: nat, k: nat)
    requires a.DoDetect? || a.DoManual?
    requires oid < |db.orders| == |end.orders| && k < |db.slots| && db.orders[oid].battery < |db.batteries|
  {
    var o, o' := db.orders[oid], end.orders[oid];
    var slot, bat := db.slots[k], db.batteries[o.battery];
    && o'.toCabinet == Some(a.cab) && o'.toSlot == Some(k) && (o'.crossCabinet <==> o.fromCabinet != a.cab)
    && o'.exceptionFee == (if a.DoDetect? then 0 else o.exceptionFee)
    && o'.status == (if a.DoDetect? && !(10 <= a.soc <= 100) then Disputed else Completed)
    && o' == o.(toCabinet := o'.toCabinet, toSlot := o'.toSlot, crossCabinet := o'.crossCabinet,
                durationSec := o'.durationSec, totalFee := o'.totalFee, paidFee := o'.paidFee,
                exceptionFee := o'.exceptionFee, refundAmt := o'.refundAmt, deposit := Settled, status := o'.status)
    && Rewrites(db, end, oid, o', o'.refundAmt)
    && end.slots == db.slots[k := slot.(status := Occupied, battery := Some(o.battery),
                                        lock := if a.DoDetect? then 1 else slot.lock)]
    && end.batteries == db.batteries[o.battery := bat.(status := InCabinet, slot := Some(k),
                                                       soc := if a.DoDetect? then a.soc else bat.soc)]
    && oid !in db.returned && oid in end.returned
    && end.returned[oid].slot == k && end.returned[oid].battery == o.battery
    && end.returned[oid].fee.total == o'.totalFee && end.returned[oid].crossCabinet == o'.crossCabinet
    && end == db.(orders := end.orders, users := end.users, records := end.records, slots := end.slots,
                  batteries := end.batteries, returned := db.returned[oid := end.returned[oid]])
  }

  lemma DetectRebinds(db: Db, a: Action, oid: nat, k: nat)
    requires Base(db) && a.DoDetect? && TakesBack(db, a, oid) && SlotAt(db.slots, a.cab, a.slotNo, k)
    ensures |Apply(db, a).orders| == |db.orders| && db.orders[oid].battery < |db.batteries|
    ensures Rebound(db, Apply(db, a), a, oid, k)
  {
    hide FeeOf;
    assert OrderLinked(db, db.orders[oid]);
    SlotIsAt(db.slots, a.cab, a.slotNo);
  }

  lemma ManualRebinds(db: Db, a: Action, oid: nat, k: nat)
    requires Base(db) && a.DoManual? && TakesBack(db, a, oid) && SlotAt(db.slots, a.cab, a.slotNo, k)
    ensures |Apply(db, a).orders| == |db.orders| && db.orders[oid].battery < |db.batteries|
    ensures Rebound(db, Apply(db, a), a, oid, k)
  {
    hide FeeOf;
    assert OrderLinked(db, db.orders[oid]);
    SlotIsAt(db.slots, a.cab, a.slotNo);
  }

  /** Either return puts the battery into the slot and the slot, the deposit and the return record onto the order. */
  lemma ReturnRebinds(db: Db, a: Action, oid: nat, k: nat)
    requires Base(db) && TakesBack(db, a, oid) && SlotAt(db.slots, a.cab, a.slotNo, k)
    ensures |Apply(db, a).orders| == |db.orders| && db.orders[oid].battery < |db.batteries|
    ensures Rebound(db, Apply(db, a), a, oid, k)
  {
    hide Apply, Attempt, Rebound;
    if a.DoDetect? { DetectRebinds(db, a, oid, k); } else { ManualRebinds(db, a, oid, k); }
  }

  // ---------- losses and damage ----------

  lemma LossAcceptedIff(db: Db, oid: nat, fee: int, now: int)
    requires Linked(db)
    ensures Attempt(db, DoLost(oid, fee, now)).Some?
            <==> oid < |db.orders| && (db.orders[oid].status == Renting || db.orders[oid].status == Disputed)
  {
    if oid < |db.orders| { assert OrderLinked(db, db.orders[oid]); }
  }

  /** The amounts are those of Returns.LossCollects; the battery is lost and nothing else changes. */
  lemma LossRewrites(db: Db, oid: nat, fee: int, now: int)
    requires Linked(db) && Attempt(db, DoLost(oid, fee, now)).Some?
    ensures var end := Apply(db, DoLost(oid, fee, now));
            && oid < |db.orders| == |end.orders| && db.orders[oid].battery < |db.batteries|
            && var o, o' := db.orders[oid], end.orders[oid];
            && o' == o.(status := Lost, durationSec := o'.durationSec, totalFee := o'.totalFee,
                        exceptionFee := o'.exceptionFee, deposit := Settled, refundAmt := o'.refundAmt)
            && Rewrites(db, end, oid, o', o'.refundAmt)
            && end.batteries == db.batteries[o.battery := db.batteries[o.battery].(status := BatteryLost)]
            && end == db.(orders := end.orders, users := end.users, records := end.records, batteries := end.batteries)
  {
    assert OrderLinked(db, db.orders[oid]);
  }

  /** Damage adds the fee given, or else the rule's damage fee, to both fees of the order; no money moves. */
  lemma DamageCharges(db: Db, oid: nat, feeCustom: int)
    requires Linked(db)
    ensures var r := Attempt(db, DoDamage(oid, feeCustom));
            && (r.Some? <==> oid < |db.orders|
                             && (db.orders[oid].status == Renting || db.orders[oid].status == Completed
                                 || db.orders[oid].status == Disputed))
            && (r.Some? ==>
                  && OrderLinked(db, db.orders[oid])
                  && var o := db.orders[oid];
                  var fee := if feeCustom > 0 then feeCustom else db.rules[o.rule].damageFee;
                  r.value == db.(
                    orders := db.orders[oid := o.(exceptionFee := o.exceptionFee + fee, totalFee := o.totalFee + fee)],
                    batteries := db.batteries[o.battery := db.batteries[o.battery].(status := Damaged)]))
  {
    if oid < |db.orders| { assert OrderLinked(db, db.orders[oid]); }
  }

  // ---------- an operator's decision on an abnormal order ----------

  /** A held deposit is settled and paid back, by the row `snap` read before. */
  ghost predicate PaysBack(db: Db, db': Db, oid: nat, snap: Order, o': Order, back: nat) {
    && Rewrites(db, db', oid, o', back)
    && db'.records == (if back > 0 then db.records + [DepositRecord(oid, snap.user, Release, back)] else db.records)
    && db' == db.(orders := db'.orders, users := db'.users, records := db'.records)
  }

  /** Refunding settles a held deposit and pays it back, recreating starts the rental now, reviewing only says so. What
      may be done and what is held is judged by the row read before the transaction; status, billing, deposit and refund
      are written back from it, the other columns stay as they are by then. */
  lemma OperatorDecides(db: Db, oid: nat, snap: Order, action: CompAction, now: int)
    requires Linked(db) && oid < |db.orders| && SameIdentity(db.orders[oid], snap)
    ensures var r := OperatorTx(db, oid, snap, action, now);
            && (r.Some? <==> && snap.status == Abnormal && snap.comp != CompDone
                             && (action == RefundDeposit || action == RecreateOrder || action == ManualReview))
            && (r.Some? ==>
                  var held := snap.deposit == Frozen && snap.depositAmt > 0;
                  var o := db.orders[oid].(action := action, billing := snap.billing, deposit := snap.deposit,
                                           refundAmt := snap.refundAmt);
                  var o' := match action
                            case RefundDeposit =>
                              o.(status := Compensated, comp := CompDone,
                                 deposit := if held then Settled else o.deposit,
                                 refundAmt := if held then snap.depositAmt else o.refundAmt)
                            case RecreateOrder =>
                              o.(status := Renting, billing := true, comp := CompDone, startTime := Some(now))
                            case _ => o.(status := Abnormal, comp := CompReview);
                  PaysBack(db, r.value, oid, snap, o', if action == RefundDeposit && held then snap.depositAmt else 0))
  {
    assert OrderLinked(db, db.orders[oid]);
  }

  /** The decision of the two loops, from the row it reads the second time, whose status it does not look at. */
  lemma DecisionWrites(db: Db, oid: nat, snap: Order, suggested: CompAction, battery: Option<nat>, now: int)
    requires Linked(db) && oid < |db.orders| && SameIdentity(db.orders[oid], snap)
    ensures var r := DecideFrom(db, oid, snap, suggested, battery, now);
            && (r.Some? <==> snap.comp != CompDone)
            && (r.Some? ==>
                  var held := snap.deposit == Frozen && snap.depositAmt > 0;
                  var o := db.orders[oid].(billing := snap.billing, deposit := snap.deposit,
                                           refundAmt := snap.refundAmt);
                  var usable := if battery.Some?
                                then battery.value < |db.batteries|
                                     && db.batteries[battery.value].status in {InUse, BatteryLost, Damaged}
                                else snap.battery < |db.batteries| && db.batteries[snap.battery].status == InUse;
                  var o' := if suggested == RefundDeposit then
                              o.(status := Compensated, action := RefundDeposit, comp := CompDone,
                                 deposit := if held then Settled else o.deposit,
                                 refundAmt := if held then snap.depositAmt else o.refundAmt)
                            else if suggested == RecreateOrder && usable then
                              o.(status := Renting, billing := true, startTime := Some(now), action := RecreateOrder,
                                 comp := CompDone)
                            else o.(status := snap.status, action := ManualReview,
                                    comp := if suggested == RecreateOrder then CompOpen else CompReview);
                  PaysBack(db, r.value, oid, snap, o',
                           if suggested == RefundDeposit && held then snap.depositAmt else 0))
  {
    assert OrderLinked(db, db.orders[oid]);
  }

  lemma RecreationStarts(db: Db, oid: nat, since: int)
    requires Base(db) && Attempt(db, DoOperator(oid, RecreateOrder, since)).Some?
    ensures var again := Apply(db, DoOperator(oid, RecreateOrder, since));
            && Base(again) && again.rules == db.rules && oid < |db.orders| == |again.orders|
            && again.orders[oid].rule == db.orders[oid].rule < |db.rules| && again.orders[oid].startTime == Some(since)
  {
    OperatorDecides(db, oid, db.orders[oid], RecreateOrder, since);
    ApplySteps(db, DoOperator(oid, RecreateOrder, since));
    assert OrderLinked(db, db.orders[oid]);
  }

  /** A recreated rental is charged from the moment of its recreation, whatever happened before. */
  lemma RecreatedIsBilledFromThen(db: Db, oid: nat, since: int, a: Action)
    requires Base(db) && Attempt(db, DoOperator(oid, RecreateOrder, since)).Some?
    requires var again := Apply(db, DoOperator(oid, RecreateOrder, since)); TakesBack(again, a, oid)
    ensures var end := Apply(Apply(db, DoOperator(oid, RecreateOrder, since)), a);
            && oid < |db.orders| == |end.orders| && db.orders[oid].rule < |db.rules|
            && (a.now >= since ==>
                  end.orders[oid].totalFee == FeeOf(db.rules[db.orders[oid].rule], a.now - since).total)
  {
    hide Attempt, Apply, FeeOf, Base;
    RecreationStarts(db, oid, since);
    var again := Apply(db, DoOperator(oid, RecreateOrder, since));
    TakingBackPosts(again, a, oid);
    TakingBackKeepsOrders(again, a, oid);
  }

  lemma TakingBackKeepsOrders(db: Db, a: Action, oid: nat)
    requires TakesBack(db, a, oid)
    ensures |Apply(db, a).orders| == |db.orders|
  {
  }

  // ---------- unlock failures ----------

  function Failed(o: Order, reason: Reason): Order {
    o.(status := Abnormal, reason := reason, billing := false, startTime := None, action := CompNone, comp := CompOpen)
  }

  /** A user's own pending or renting order turns abnormal, under one of three reasons. */
  lemma UserReportsFailure(db: Db, u: nat, oid: nat, reason: Reason)
    ensures var r := Attempt(db, DoUnlockFailure(u, oid, reason));
            if && oid < |db.orders| && db.orders[oid].user == u
               && (db.orders[oid].status == Pending || db.orders[oid].status == Renting)
            then r == Some(db.(orders := db.orders[oid := Failed(db.orders[oid], match reason
                                                                   case BatteryMissing => BatteryMissing
                                                                   case LockStuck => LockStuck
                                                                   case _ => DoorNotOpen)]))
            else r == None
  {
  }

  /** A failed unlock report turns the slot's pending and renting orders abnormal, but for those that started less than
      300 seconds ago. */
  lemma FailedUnlockReport(db: Db, cab: nat, slotNo: nat, now: int, k: nat)
    requires SlotAt(db.slots, cab, slotNo, k)
    ensures var end := Apply(db, DoUnlockReport(cab, slotNo, false, now));
            && end == db.(orders := end.orders) && |end.orders| == |db.orders|
            && forall i: nat | i < |db.orders| ::
                 var o := db.orders[i];
                 end.orders[i] ==
                   if && o.fromCabinet == cab && o.fromSlot == k && (o.status == Pending || o.status == Renting)
                      && (o.startTime == None || now - o.startTime.value >= 300)
                   then Failed(o, LockStuck) else o
  {
    SlotIsAt(db.slots, cab, slotNo);
    FailLoopRewrites(db, cab, k, |db.orders|, now);
  }

  // ---------- decisions on abnormal orders ----------

  /** An abnormal order with a reason and an open compensation. */
  predicate Waiting(o: Order) {
    o.status == Abnormal && o.comp == CompOpen && o.reason != NoReason
  }

  /** Back to renting from now, if the battery is in use, lost or damaged. */
  function Reopened(o: Order, bat: BatteryStatus, now: int): Order {
    if bat == InUse || bat == BatteryLost || bat == Damaged
    then o.(status := Renting, billing := true, startTime := Some(now), action := RecreateOrder, comp := CompDone)
    else o.(action := ManualReview, comp := CompOpen)
  }

  /** A successful unlock report empties the slot and works its lock; each order waiting there for an hour at most is
      reopened if its battery allows, each older one goes to review. */
  lemma SuccessfulUnlockReport(db: Db, cab: nat, slotNo: nat, now: int, k: nat)
    requires Linked(db) && SlotAt(db.slots, cab, slotNo, k)
    ensures var end := Apply(db, DoUnlockReport(cab, slotNo, true, now));
            && end.slots == db.slots[k := db.slots[k].(status := Empty, battery := None, lock := 1)]
            && end == db.(orders := end.orders, slots := end.slots) && |end.orders| == |db.orders|
            && forall i: nat | i < |db.orders| ::
                 && db.orders[i].battery < |db.batteries|
                 && var o := db.orders[i];
                 end.orders[i] ==
                   if o.fromCabinet != cab || o.fromSlot != k || !Waiting(o) then o
                   else if now - o.createdAt > 3600 then o.(action := ManualReview, comp := CompReview)
                   else Reopened(o, db.batteries[o.battery].status, now)
  {
    SlotIsAt(db.slots, cab, slotNo);
    var emptied := ConfirmUnlock(db, k);
    ConfirmedLinked(db, k);
    UnlockLoopRewrites(emptied, cab, k, |db.orders|, now);
    forall i: nat | i < |db.orders| ensures OrderLinked(db, db.orders[i]) {}
  }

  /** What a recovery makes of an order that waits for it, for a day at most: reopened within the hour if its battery is
      gone from the slot, refunded if it is still locked in, and otherwise reviewed. */
  function Recovered(db: Db, o: Order, now: int): Order
    requires o.battery < |db.batteries|
  {
    var age, bat := now - o.createdAt, db.batteries[o.battery];
    var reviewed := o.(action := ManualReview, comp := CompReview);
    var held := o.deposit == Frozen && o.depositAmt > 0;
    if age > 24 * 3600 || o.fromSlot >= |db.slots| then reviewed
    else
      var slot := db.slots[o.fromSlot];
      if bat.status == InUse || slot.status == Empty || slot.battery != Some(o.battery) then
        if age > 3600 then reviewed else Reopened(o, bat.status, now)
      else if slot.status == Occupied && bat.status == InCabinet then
        o.(status := Compensated, action := RefundDeposit, comp := CompDone,
           deposit := if held then Settled else o.deposit, refundAmt := if held then o.depositAmt else o.refundAmt)
      else reviewed
  }

  lemma TableIsRecovered(db: Db, o: Order, now: int)
    requires o.battery < |db.batteries|
    ensures AfterRecovery(db, o, now) == Recovered(db, o, now)
  {
  }

  /** A cabinet back from being offline is online as of now, and each order waiting for that is decided. */
  ghost predicate Recovers(db: Db, end: Db, cab: nat, now: int)
    requires cab < |db.cabinets|
  {
    && end == db.(orders := end.orders, users := end.users, records := end.records, cabinets := end.cabinets)
    && end.cabinets == db.cabinets[cab := Cabinet(Online, Some(now))]
    && |end.orders| == |db.orders|
    && forall i: nat | i < |db.orders| ::
         && db.orders[i].battery < |db.batteries|
         && end.orders[i] == if db.orders[i].fromCabinet == cab && Waiting(db.orders[i])
                                && db.orders[i].reason == CabinetOffline
                             then Recovered(db, db.orders[i], now) else db.orders[i]
  }

  /** A replayed batch with an item processed recovers its cabinet if that reads offline, and does nothing otherwise. */
  lemma ReplayRecovers(db: Db, cab: nat, now: int)
    requires Linked(db)
    ensures var end := Apply(db, DoReplayed(cab, now));
            if cab < |db.cabinets| && db.cabinets[cab].status == Offline then Recovers(db, end, cab, now) else end == db
  {
    hide AfterRecovery, Recovered, RecoveryLoop;
    if cab < |db.cabinets| && db.cabinets[cab].status == Offline {
      var marked := SetCabinet(db, cab, Cabinet(Online, Some(now)));
      forall i | 0 <= i < |marked.orders| ensures OrderLinked(marked, marked.orders[i]) {
        assert OrderLinked(db, db.orders[i]);
      }
      RecoveryLoopRewrites(marked, cab, |db.orders|, now);
      forall i: nat | i < |db.orders|
        ensures db.orders[i].battery < |db.batteries|
        ensures AfterRecovery(marked, db.orders[i], now) == Recovered(db, db.orders[i], now)
      {
        assert OrderLinked(db, db.orders[i]);
        TableIsRecovered(marked, db.orders[i], now);
        RecoveredOnSame(db, marked, db.orders[i], now);
      }
    }
  }

  lemma RecoveredOnSame(db: Db, db': Db, o: Order, now: int)
    requires o.battery < |db.batteries| && db'.batteries == db.batteries && db'.slots == db.slots
    ensures Recovered(db', o, now) == Recovered(db, o, now)
  {
  }

  /** An accepted heartbeat marks the cabinet online and recovers nothing; a rejected one that says online recovers an
      offline cabinet as a replay does. */
  lemma HeartbeatMarksOrRecovers(db: Db, cab: nat, accepted: bool, online: bool, now: int)
    requires Linked(db) && cab < |db.cabinets|
    ensures var end := Apply(db, DoHeartbeat(cab, accepted, online, now));
            if accepted then end == db.(cabinets := db.cabinets[cab := Cabinet(Online, Some(now))])
            else if online && db.cabinets[cab].status == Offline then Recovers(db, end, cab, now)
            else end == db
  {
    hide Recovers, RecoveryLoop;
    ReplayRecovers(db, cab, now);
  }

  // ---------- payments and batteries ----------

  /** A callback is remembered by payment, transaction and amount, and does nothing the second time. The first time it
      is counted; it credits an unpaid payment if it reports success of the payment's amount or of none, and fails it
      otherwise. */
  lemma CallbackCredits(db: Db, cb: Callback)
    requires Linked(db)
    ensures var end, key := Apply(db, DoCallback(cb)), CallbackKey(cb.pay, cb.txn, cb.amount);
            if key in db.callbackKeys then end == db
            else
              && end.callbackKeys == db.callbackKeys + {key}
              && if cb.pay >= |db.payments| then end == db.(callbackKeys := end.callbackKeys)
                 else
                   var p := db.payments[cb.pay];
                   && p.user < |db.users|
                   && var settled := p.status == PaySuccess || p.status == PayRefunded;
                   var pays := !settled && cb.success && (cb.amount <= 0 || cb.amount == p.amount);
                   && end.payments == db.payments[cb.pay := p.(
                        callbacks := p.callbacks + 1,
                        status := if settled then p.status else if pays then PaySuccess else PayFailed)]
                   && end.users == (if pays then db.users[p.user := db.users[p.user].(
                                      balance := db.users[p.user].balance + p.amount)] else db.users)
                   && end.orders == (if pays && p.order.Some? && p.order.value < |db.orders|
                                     then var o := db.orders[p.order.value];
                                          db.orders[p.order.value := o.(paidFee := o.paidFee + p.amount)]
                                     else db.orders)
                   && end == db.(callbackKeys := end.callbackKeys, payments := end.payments, users := end.users,
                                 orders := end.orders)
  {
  }

  lemma RechargeOpens(db: Db, u: nat, amount: nat)
    ensures Attempt(db, DoRecharge(u, amount))
         == if u < |db.users| then Some(db.(payments := db.payments + [Payment(u, None, amount, PayPending, 0)]))
            else None
  {
  }

  /** A battery may be assigned to any slot that is not occupied. */
  lemma AssignPlaces(db: Db, b: nat, cab: nat, slotNo: nat)
    ensures var r := Attempt(db, DoAssign(b, cab, slotNo));
            && (r.Some? <==> b < |db.batteries| && exists k: nat ::
                               SlotAt(db.slots, cab, slotNo, k) && db.slots[k].status != Occupied)
            && forall k: nat :: r.Some? && SlotAt(db.slots, cab, slotNo, k) ==>
                 r.value == db.(
                   slots := db.slots[k := db.slots[k].(status := Occupied, battery := Some(b))],
                   batteries := db.batteries[b := db.batteries[b].(status := InCabinet, slot := Some(k))])
  {
    SlotIsAt(db.slots, cab, slotNo);
  }

  /** One reported slot: an unknown number is a new slot; in a known one the lock is as reported and the occupancy too,
      unless the slot is unlocking or being returned to; a registered battery is moved there and its charge stored, an
      unregistered one is ignored, none clears the slot. */
  lemma EntryPlaces(db: Db, cab: nat, slotNo: nat, occupied: bool, seen: Option<nat>, lock: int, soc: int)
    ensures var end := Apply(db, DoSlotEntry(cab, slotNo, occupied, seen, lock, soc));
            var asSeen := if occupied then Occupied else Empty;
            var known := seen.Some? && seen.value < |db.batteries|;
            && ((forall k: nat :: !SlotAt(db.slots, cab, slotNo, k)) ==>
                  end == db.(slots := db.slots + [Slot(cab, slotNo, if known then seen else None, asSeen, lock)]))
            && forall k: nat :: SlotAt(db.slots, cab, slotNo, k) ==>
                 var slot, slot' := db.slots[k], end.slots[k];
                 && end == db.(slots := db.slots[k := slot'], batteries := end.batteries)
                 && slot'.cabinet == cab && slot'.slotNo == slotNo && slot'.lock == lock
                 && slot'.status == (if slot.status == Unlocking || slot.status == SlotReturning
                                     then slot.status else asSeen)
                 && slot'.battery == (if seen.Some? && !known then slot.battery else seen)
                 && end.batteries == if known then db.batteries[seen.value := db.batteries[seen.value].(
                                                                  slot := Some(k), soc := soc)]
                                     else db.batteries
  {
    SlotIsAt(db.slots, cab, slotNo);
  }
}
