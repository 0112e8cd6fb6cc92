/** What unlock reports and recoveries make of abnormal orders (internal/handlers/report_service.go), each loop as one
    simultaneous rewrite of the orders it concerns. */
module Compensation {
  import opened Models
  import opened Transactions
  import opened Handlers
  import opened Lifecycle

  predicate Older(o: Order, age: int, now: int) { o.createdAt + age < now }

  function Reviewed(o: Order): Order { o.(action := ManualReview, comp := CompReview) }

  /** A recreation that the battery's status rules out leaves the compensation open instead of under review. */
  function Recreated(o: Order, bat: BatteryStatus, now: int): Order {
    if bat in {InUse, BatteryLost, Damaged}
    then o.(status := Renting, billing := true, startTime := Some(now), action := RecreateOrder, comp := CompDone)
    else o.(action := ManualReview, comp := CompOpen)
  }

  function Refunded(o: Order): Order {
    o.(status := Compensated, action := RefundDeposit, comp := CompDone,
       deposit := if Held(o) > 0 then Settled else o.deposit, refundAmt := if Held(o) > 0 then Held(o) else o.refundAmt)
  }

  // ---------- a successful unlock ----------

  /** Review if the order is over an hour old, else back to renting if the battery's status allows. */
  function AfterUnlock(db: Db, o: Order, now: int): Order
    requires o.battery < |db.batteries|
  {
    if Older(o, 3600, now) then Reviewed(o) else Recreated(o, db.batteries[o.battery].status, now)
  }

  lemma UnpaidPost(db: Db, oid: nat, o: Order)
    requires oid < |db.orders| && o.user < |db.users|
    ensures Post(db, oid, o, 0, []) == db.(orders := db.orders[oid := o])
  {
    assert db.users[o.user := db.users[o.user].(balance := db.users[o.user].balance + 0)] == db.users;
    assert db.records + [] == db.records;
  }

  lemma DecideAfterUnlock(db: Db, oid: nat, limit: int, now: int)
    requires Linked(db) && oid < |db.orders| && db.orders[oid].comp != CompDone
    requires db.orders[oid].fromSlot < |db.slots| && db.slots[db.orders[oid].fromSlot].status == Empty
    requires limit >= 3600
    ensures DecideOne(db, oid, limit, now)
         == Some(db.(orders := db.orders[oid := AfterUnlock(db, db.orders[oid], now)]))
  {
    assert OrderLinked(db, db.orders[oid]);
    var o := db.orders[oid];
    assert TakenOut(db, o);
    UnpaidPost(db, oid, Reviewed(o));
    UnpaidPost(db, oid, Recreated(o, db.batteries[o.battery].status, now));
  }

  lemma {:induction false} UnlockLoopRewrites(db: Db, cab: nat, k: nat, n: nat, now: int)
    requires Linked(db) && k < |db.slots| && db.slots[k].status == Empty
    ensures var end := UnlockLoop(db, cab, k, n, now);
            && end == db.(orders := end.orders) && |end.orders| == |db.orders|
            && forall i: nat | i < |db.orders| ::
                 && OrderLinked(db, db.orders[i])
                 && end.orders[i] == if i < n && AwaitsUnlock(db.orders[i], cab, k)
                                     then AfterUnlock(db, db.orders[i], now) else db.orders[i]
    decreases n
  {
    forall i: nat | i < |db.orders| ensures OrderLinked(db, db.orders[i]) {}
    if n > 0 {
      var next := db;
      if n <= |db.orders| && AwaitsUnlock(db.orders[n - 1], cab, k) {
        DecideAfterUnlock(db, n - 1, 48 * 3600, now);
        next := OrKeep(DecideOne(db, n - 1, 48 * 3600, now), db);
        RewriteLinked(db, next, n - 1);
      }
      UnlockLoopRewrites(next, cab, k, n - 1, now);
    }
  }

  lemma RewriteLinked(db: Db, db': Db, oid: nat)
    requires Linked(db) && oid < |db.orders| == |db'.orders|
    requires db' == db.(orders := db.orders[oid := db'.orders[oid]]) && SameIdentity(db.orders[oid], db'.orders[oid])
    ensures Linked(db')
  {
    forall i | 0 <= i < |db'.orders| ensures OrderLinked(db', db'.orders[i]) {
      assert OrderLinked(db, db.orders[i]);
    }
  }

  /** A successful unlock report empties the slot first, so every abnormal order waiting there ends renting or under
      review, or stays open when its battery's status rules recreation out. None is refunded: no balance moves. */
  lemma UnlockReportNeverRefunds(db: Db, cab: nat, slotNo: nat, now: int)
    requires Linked(db) && FindSlot(db.slots, cab, slotNo).Some?
    ensures var k, end := FindSlot(db.slots, cab, slotNo).value, UnlockReport(db, cab, slotNo, true, now);
            && end.users == db.users && end.records == db.records && end.batteries == db.batteries
            && |end.slots| == |db.slots| && end.slots[k].status == Empty && end.slots[k].battery == None
            && |end.orders| == |db.orders|
            && forall i: nat | i < |db.orders| ::
                 && OrderLinked(db, db.orders[i])
                 && end.orders[i] == if AwaitsUnlock(db.orders[i], cab, k)
                                     then AfterUnlock(db, db.orders[i], now) else db.orders[i]
  {
    var k := FindSlot(db.slots, cab, slotNo).value;
    var emptied := ConfirmUnlock(db, k);
    ConfirmedLinked(db, k);
    UnlockLoopRewrites(emptied, cab, k, |db.orders|, now);
    forall i: nat | i < |db.orders| ensures OrderLinked(db, db.orders[i]) {}
  }

  /** No other slot is touched. */
  lemma UnlockReportSlots(db: Db, cab: nat, slotNo: nat, now: int)
    requires Linked(db) && FindSlot(db.slots, cab, slotNo).Some?
    ensures var k, end := FindSlot(db.slots, cab, slotNo).value, UnlockReport(db, cab, slotNo, true, now);
            end.slots == db.slots[k := db.slots[k].(status := Empty, battery := None, lock := 1)]
  {
    var k := FindSlot(db.slots, cab, slotNo).value;
    ConfirmedLinked(db, k);
    UnlockLoopRewrites(ConfirmUnlock(db, k), cab, k, |db.orders|, now);
  }

  lemma ConfirmedLinked(db: Db, k: nat)
    requires Linked(db) && k < |db.slots|
    ensures Linked(ConfirmUnlock(db, k))
  {
    forall i | 0 <= i < |db.orders| ensures OrderLinked(ConfirmUnlock(db, k), db.orders[i]) {
      assert OrderLinked(db, db.orders[i]);
    }
  }

  /** A failed unlock report turns exactly the overdue pending and renting orders of the slot abnormal. */
  lemma {:induction false} FailLoopRewrites(db: Db, cab: nat, k: nat, n: nat, now: int)
    ensures var end := FailLoop(db, cab, k, n, now);
            && end == db.(orders := end.orders) && |end.orders| == |db.orders|
            && forall i: nat | i < |db.orders| ::
                 end.orders[i] == if i < n && FailsUnlock(db.orders[i], cab, k, now)
                                  then ToAbnormal(db.orders[i], LockStuck) else db.orders[i]
    decreases n
  {
    if n > 0 {
      var next := if n <= |db.orders| && FailsUnlock(db.orders[n - 1], cab, k, now)
                  then db.(orders := db.orders[n - 1 := ToAbnormal(db.orders[n - 1], LockStuck)]) else db;
      FailLoopRewrites(next, cab, k, n - 1, now);
    }
  }

  // ---------- a recovered cabinet ----------

  /** The decision table of a recovery. */
  function AfterRecovery(db: Db, o: Order, now: int): Order
    requires o.battery < |db.batteries|
  {
    if Older(o, 24 * 3600, now) || o.fromSlot >= |db.slots| then Reviewed(o)
    else if TakenOut(db, o) then
      if Older(o, 3600, now) then Reviewed(o) else Recreated(o, db.batteries[o.battery].status, now)
    else if StillInside(db, o) then Refunded(o)
    else Reviewed(o)
  }

  /** The order is decided by the table; the rest of what a decision looks at stays as it is. */
  ghost predicate Decided(db: Db, db': Db, oid: nat, now: int) {
    && Linked(db') && |db'.users| == |db.users|
    && db' == db.(orders := db'.orders, users := db'.users, records := db'.records)
    && oid < |db.orders| && db.orders[oid].battery < |db.batteries|
    && db'.orders == db.orders[oid := AfterRecovery(db, db.orders[oid], now)]
  }

  lemma DecideAfterRecovery(db: Db, oid: nat, now: int)
    requires Linked(db) && oid < |db.orders| && db.orders[oid].comp != CompDone
    ensures var r := DecideOne(db, oid, 24 * 3600, now); r.Some? && Decided(db, r.value, oid, now)
  {
    assert OrderLinked(db, db.orders[oid]);
    DecideOneShape(db, oid, 24 * 3600, now);
    var db' := DecideOne(db, oid, 24 * 3600, now).value;
    forall i | 0 <= i < |db'.orders| ensures OrderLinked(db', db'.orders[i]) {
      assert OrderLinked(db, db.orders[i]);
    }
  }

  /** A decision rewrites the order it is about, may pay its user, and appends records for it. */
  ghost predicate Shaped(db: Db, db': Db, oid: nat) {
    && oid < |db.orders| == |db'.orders|
    && db' == db.(orders := db.orders[oid := db'.orders[oid]], users := db'.users, records := db'.records)
    && SameIdentity(db.orders[oid], db'.orders[oid])
    && |db'.users| == |db.users| && |db'.records| >= |db.records|
    && (forall j | 0 <= j < |db.records| :: db'.records[j] == db.records[j])
    && (forall j | |db.records| <= j < |db'.records| :: db'.records[j].order == oid)
  }

  lemma DecideShape(db: Db, oid: nat, suggested: CompAction, battery: Option<nat>, now: int)
    requires oid < |db.orders|
    ensures var r := DecideTx(db, oid, suggested, battery, now); r.Some? ==> Shaped(db, r.value, oid)
  {
  }

  lemma DecideOneShape(db: Db, oid: nat, limit: int, now: int)
    requires oid < |db.orders|
    ensures var r := DecideOne(db, oid, limit, now); r.Some? ==> Shaped(db, r.value, oid)
  {
    var b := Some(db.orders[oid].battery);
    DecideShape(db, oid, ManualReview, None, now);
    DecideShape(db, oid, ManualReview, b, now);
    DecideShape(db, oid, RecreateOrder, b, now);
    DecideShape(db, oid, RefundDeposit, b, now);
  }

  ghost predicate RecoveredBelow(db: Db, db': Db, cab: nat, n: nat, now: int) {
    && |db'.orders| == |db.orders|
    && db' == db.(orders := db'.orders, users := db'.users, records := db'.records)
    && forall i: nat | i < |db.orders| ::
         && OrderLinked(db, db.orders[i])
         && db'.orders[i] == if i < n && AwaitsRecovery(db.orders[i], cab)
                             then AfterRecovery(db, db.orders[i], now) else db.orders[i]
  }

  lemma RecoveredStep(db: Db, next: Db, last: Db, cab: nat, n: nat, now: int)
    requires Linked(db) && 0 < n <= |db.orders| && AwaitsRecovery(db.orders[n - 1], cab)
    requires Decided(db, next, n - 1, now) && RecoveredBelow(next, last, cab, n - 1, now)
    ensures RecoveredBelow(db, last, cab, n, now)
  {
    forall i: nat | i < |db.orders|
      ensures OrderLinked(db, db.orders[i])
      ensures last.orders[i] == if i < n && AwaitsRecovery(db.orders[i], cab)
                                then AfterRecovery(db, db.orders[i], now) else db.orders[i]
    {
      assert OrderLinked(next, next.orders[i]);
    }
  }

  /** A recovery decides every order that waits for it by the slots and batteries as they are; the money follows the
      table because every step conserves. */
  lemma {:induction false} RecoveryLoopRewrites(db: Db, cab: nat, n: nat, now: int)
    requires Linked(db)
    ensures RecoveredBelow(db, RecoveryLoop(db, cab, n, now), cab, n, now)
    decreases n
  {
    hide DecideTx, DecideFrom, AfterRecovery;
    forall i: nat | i < |db.orders| ensures OrderLinked(db, db.orders[i]) {}
    if n > 0 {
      if n <= |db.orders| && AwaitsRecovery(db.orders[n - 1], cab) {
        DecideAfterRecovery(db, n - 1, now);
        var next := DecideOne(db, n - 1, 24 * 3600, now).value;
        RecoveryLoopRewrites(next, cab, n - 1, now);
        RecoveredStep(db, next, RecoveryLoop(next, cab, n - 1, now), cab, n, now);
      } else {
        RecoveryLoopRewrites(db, cab, n - 1, now);
      }
    }
  }

  // ---------- heartbeats ----------

  /** Storing an accepted heartbeat marks the cabinet online before the handler looks whether it was offline, so a
      heartbeat recovers a cabinet if and only if it is rejected as a duplicate or as out of order. */
  lemma HeartbeatRecoversIffRejected(db: Db, cab: nat, accepted: bool, online: bool, now: int)
    requires Linked(db) && cab < |db.cabinets|
    ensures var end := Heartbeat(db, cab, accepted, online, now);
            && |end.orders| == |db.orders| && |end.cabinets| == |db.cabinets|
            && (accepted ==> end.cabinets[cab] == Cabinet(Online, Some(now)))
            && forall i: nat | i < |db.orders| ::
                 && OrderLinked(db, db.orders[i])
                 && end.orders[i] == if AwaitsRecovery(db.orders[i], cab)
                                        && !accepted && online && db.cabinets[cab].status == Offline
                                     then AfterRecovery(db, db.orders[i], now) else db.orders[i]
  {
    forall i: nat | i < |db.orders| ensures OrderLinked(db, db.orders[i]) {}
    if !accepted && online && db.cabinets[cab].status == Offline {
      var marked := SetCabinet(db, cab, Cabinet(Online, Some(now)));
      forall i | 0 <= i < |marked.orders| ensures OrderLinked(marked, marked.orders[i]) {
        assert OrderLinked(db, db.orders[i]);
      }
      RecoveryLoopRewrites(marked, cab, |db.orders|, now);
    }
  }
}
