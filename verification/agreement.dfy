/** Orders, batteries and slots agree about where each battery is: exactly which steps of a serial run keep it so. */
module Agreement {
  import opened Fees
  import opened Models
  import opened Transactions
  import opened Handlers
  import opened Scanning
  import opened Lifecycle
  import opened Compensation

  /** One renting order per battery; a rented battery is in no slot; an occupied slot's battery points back at it. */
  ghost predicate Agree(db: Db) {
    && (forall i, j | 0 <= i < j < |db.orders| ::
          db.orders[i].status == Renting && db.orders[j].status == Renting ==>
              db.orders[i].battery != db.orders[j].battery)
    && (forall i | 0 <= i < |db.orders| ::
          db.orders[i].status == Renting ==>
            db.orders[i].battery < |db.batteries| && db.batteries[db.orders[i].battery].slot == None)
    && (forall k: nat | k < |db.slots| && Houses(db.slots[k]) && db.slots[k].battery.value < |db.batteries| ::
          db.batteries[db.slots[k].battery.value].slot == Some(k))
  }

  predicate Houses(s: Slot) {
    s.status == Occupied && s.battery.Some?
  }

  /** In particular no battery sits in two occupied slots. */
  lemma OneHousePerBattery(db: Db, k1: nat, k2: nat)
    requires Agree(db) && k1 < |db.slots| && k2 < |db.slots|
    requires Houses(db.slots[k1]) && Houses(db.slots[k2]) && db.slots[k1].battery == db.slots[k2].battery
    requires db.slots[k1].battery.value < |db.batteries|
    ensures k1 == k2
  {
    assert db.batteries[db.slots[k1].battery.value].slot == Some(k1);
  }

  // ---------- steps that open nothing ----------

  /** Every active order was active before, for the same user and battery. */
  ghost predicate OpensNone(db: Db, db': Db) {
    && |db'.orders| >= |db.orders|
    && (forall i | 0 <= i < |db'.orders| && Active(db'.orders[i]) ::
          && i < |db.orders| && Active(db.orders[i])
          && db'.orders[i].user == db.orders[i].user && db'.orders[i].battery == db.orders[i].battery
          && (db'.orders[i].status == Renting ==> db.orders[i].status == Renting))
  }

  /** No slot becomes occupied and no battery changes place. */
  ghost predicate FillsNone(db: Db, db': Db) {
    && |db'.batteries| == |db.batteries|
    && (forall b | 0 <= b < |db.batteries| :: db'.batteries[b].slot == db.batteries[b].slot)
    && (forall k | 0 <= k < |db'.slots| && Houses(db'.slots[k]) ::
          k < |db.slots| && Houses(db.slots[k]) && db'.slots[k].battery == db.slots[k].battery)
  }

  ghost predicate Quiet(db: Db, db': Db) {
    OpensNone(db, db') && FillsNone(db, db')
  }

  lemma QuietAgrees(db: Db, db': Db)
    requires Agree(db) && Quiet(db, db')
    ensures Agree(db')
  {
  }

  // ---------- steps that may reopen abnormal orders ----------

  /** Whether a successful unlock reopens the waiting order o: it is at most an hour old and its battery's status does
      not rule recreation out. */
  predicate UnlockReopens(db: Db, o: Order, now: int) {
    o.battery < |db.batteries| && !Older(o, 3600, now)
        && db.batteries[o.battery].status in {InUse, BatteryLost, Damaged}
  }

  /** A recovery also wants the battery taken out. */
  predicate RecoveryReopens(db: Db, o: Order, now: int) {
    UnlockReopens(db, o, now) && o.fromSlot < |db.slots| && TakenOut(db, o)
  }

  predicate Recovers(db: Db, cab: nat) {
    cab < |db.cabinets| && db.cabinets[cab].status == Offline
  }

  /** Which orders an action sets back to renting, read off the tables before it. */
  predicate Reopens(db: Db, a: Action, i: nat) {
    && i < |db.orders| && db.orders[i].status == Abnormal
    && match a
       case DoOperator(oid, action, _) => i == oid && action == RecreateOrder && db.orders[i].comp != CompDone
       case DoUnlockReport(cab, no, unlocked, now) =>
         && unlocked && FindSlot(db.slots, cab, no).Some?
         && AwaitsUnlock(db.orders[i], cab, FindSlot(db.slots, cab, no).value) && UnlockReopens(db, db.orders[i], now)
       case DoHeartbeat(cab, accepted, online, now) =>
         && !accepted && online && Recovers(db, cab)
         && AwaitsRecovery(db.orders[i], cab) && RecoveryReopens(db, db.orders[i], now)
       case DoReplayed(cab, now) =>
         Recovers(db, cab) && AwaitsRecovery(db.orders[i], cab) && RecoveryReopens(db, db.orders[i], now)
       case _ => false
  }

  predicate MayReopen(a: Action) {
    || (a.DoOperator? && a.action == RecreateOrder) || (a.DoUnlockReport? && a.unlocked)
    || a.DoHeartbeat? || a.DoReplayed?
  }

  /** Exactly the reopened orders start renting; every other order is active or renting as before. */
  ghost predicate Reopened(db: Db, db': Db, a: Action) {
    && |db'.orders| == |db.orders| && FillsNone(db, db')
    && forall i: nat | i < |db.orders| ::
         var o, o' := db.orders[i], db'.orders[i];
         && o'.user == o.user && o'.battery == o.battery
         && (if Reopens(db, a, i) then o'.status == Renting
             else (Active(o') <==> Active(o)) && (o'.status == Renting <==> o.status == Renting))
  }

  lemma OperatorReopens(db: Db, a: Action)
    requires Linked(db) && a.DoOperator? && a.action == RecreateOrder
    ensures Reopened(db, Apply(db, a), a)
  {
    if a.oid < |db.orders| { assert OrderLinked(db, db.orders[a.oid]); }
  }

  lemma UnlockReopened(db: Db, a: Action)
    requires Linked(db) && a.DoUnlockReport? && a.unlocked
    ensures Reopened(db, Apply(db, a), a)
  {
    var k := FindSlot(db.slots, a.cab, a.slotNo);
    if k.Some? {
      UnlockReportNeverRefunds(db, a.cab, a.slotNo, a.now);
      UnlockReportSlots(db, a.cab, a.slotNo, a.now);
    }
  }

  lemma AfterRecoveryShape(db: Db, o: Order, now: int)
    requires o.battery < |db.batteries| && o.status == Abnormal
    ensures var o' := AfterRecovery(db, o, now);
            && o'.user == o.user && o'.battery == o.battery
            && (if RecoveryReopens(db, o, now) then o'.status == Renting else !Active(o'))
  {
  }

  lemma RecoveryShape(db: Db, cab: nat, now: int, i: nat)
    requires Linked(db) && Recovers(db, cab) && i < |db.orders|
    ensures var o, db' := db.orders[i], RecoverCabinet(db, cab, now);
            && |db'.orders| == |db.orders| && db'.slots == db.slots && db'.batteries == db.batteries
            && db'.orders[i].user == o.user && db'.orders[i].battery == o.battery
            && (if AwaitsRecovery(o, cab) then
                  if RecoveryReopens(db, o, now) then db'.orders[i].status == Renting else !Active(db'.orders[i])
                else db'.orders[i] == o)
  {
    var marked := SetCabinet(db, cab, Cabinet(Online, Some(now)));
    assert Linked(marked) by {
      forall j | 0 <= j < |marked.orders| ensures OrderLinked(marked, marked.orders[j]) {
        assert OrderLinked(db, db.orders[j]);
      }
    }
    RecoveryLoopRewrites(marked, cab, |db.orders|, now);
    if AwaitsRecovery(db.orders[i], cab) {
      AfterRecoveryShape(marked, db.orders[i], now);
    }
  }

  lemma RecoveryReopened(db: Db, db': Db, a: Action, cab: nat, now: int)
    requires Linked(db) && Recovers(db, cab)
    requires (a == DoReplayed(cab, now)) || (a.DoHeartbeat? && a.cab == cab && a.now == now && !a.accepted && a.online)
    requires db' == RecoverCabinet(db, cab, now)
    ensures Reopened(db, db', a)
  {
    forall i: nat | i < |db.orders|
      ensures |db'.orders| == |db.orders|
      ensures var o, o' := db.orders[i], db'.orders[i];
              && o'.user == o.user && o'.battery == o.battery
              && (if Reopens(db, a, i) then o'.status == Renting
                  else (Active(o') <==> Active(o)) && (o'.status == Renting <==> o.status == Renting))
    {
      RecoveryShape(db, cab, now, i);
    }
    if |db.orders| > 0 { RecoveryShape(db, cab, now, 0); }
  }

  lemma ActionReopened(db: Db, a: Action)
    requires Linked(db) && MayReopen(a)
    ensures Reopened(db, Apply(db, a), a)
  {
    match a
    case DoOperator(_, _, _) => OperatorReopens(db, a);
    case DoUnlockReport(_, _, _, _) => UnlockReopened(db, a);
    case DoReplayed(cab, now) => if Recovers(db, cab) { RecoveryReopened(db, Apply(db, a), a, cab, now); }
    case DoHeartbeat(cab, accepted, online, now) =>
      if !accepted && online && Recovers(db, cab) { RecoveryReopened(db, Apply(db, a), a, cab, now); }
  }

  /** Rented by nobody and in no slot. */
  predicate AtLarge(db: Db, b: nat) {
    b < |db.batteries| && db.batteries[b].slot == None && !RentedOut(db, b)
  }

  predicate RentedOut(db: Db, b: nat) {
    exists i | 0 <= i < |db.orders| :: db.orders[i].status == Renting && db.orders[i].battery == b
  }

  /** Every reopened order finds its battery at large, and no two reopened orders share one. */
  ghost predicate ReopensFit(db: Db, a: Action) {
    && (forall i: nat | Reopens(db, a, i) :: AtLarge(db, db.orders[i].battery))
    && (forall i: nat, j: nat | i < j && Reopens(db, a, i) && Reopens(db, a, j) ::
          db.orders[i].battery != db.orders[j].battery)
  }

  lemma ReopenedAgreesIf(db: Db, db': Db, a: Action)
    requires Agree(db) && Reopened(db, db', a) && ReopensFit(db, a)
    ensures Agree(db')
  {
    forall i, j | 0 <= i < j < |db'.orders| && db'.orders[i].status == db'.orders[j].status == Renting
      ensures db'.orders[i].battery != db'.orders[j].battery
    {
      assert Reopens(db, a, i) || db.orders[i].status == Renting;
      assert Reopens(db, a, j) || db.orders[j].status == Renting;
    }
  }

  lemma ReopenedAgreesOnlyIf(db: Db, db': Db, a: Action)
    requires Agree(db) && Agree(db') && Reopened(db, db', a)
    ensures ReopensFit(db, a)
  {
    forall i: nat | Reopens(db, a, i) ensures AtLarge(db, db.orders[i].battery) {
      forall j | 0 <= j < |db.orders| && db.orders[j].status == Renting
        ensures db.orders[j].battery != db.orders[i].battery
      {
        assert db'.orders[j].status == db'.orders[i].status == Renting;
        if i < j { assert db'.orders[i].battery != db'.orders[j].battery; }
      }
    }
    forall i: nat, j: nat | i < j && Reopens(db, a, i) && Reopens(db, a, j)
      ensures db.orders[i].battery != db.orders[j].battery
    {
      assert db'.orders[i].status == db'.orders[j].status == Renting;
    }
  }

  lemma {:induction false} FailLoopQuiet(db: Db, cab: nat, k: nat, n: nat, now: int)
    ensures Quiet(db, FailLoop(db, cab, k, n, now))
  {
    FailLoopRewrites(db, cab, k, n, now);
  }

  // ---------- renting and returning ----------

  lemma RentAgrees(db: Db, u: nat, snap: User, k: nat, now: int)
    requires Agree(db)
    ensures Agree(OrKeep(RentTx(db, u, snap, k, now), db))
  {
    var r := RentTx(db, u, snap, k, now);
    if r.Some? {
      var db', b, n := r.value, db.slots[k].battery.value, |db.orders|;
      assert db.batteries[b].slot == Some(k);
      forall i, j | 0 <= i < j < |db'.orders| && db'.orders[i].status == Renting && db'.orders[j].status == Renting
        ensures db'.orders[i].battery != db'.orders[j].battery
      {
        assert db'.orders[i] == db.orders[i];
      }
    }
  }

  /** Closing a renting order puts its battery, which was in no slot, into the slot of the return. */
  lemma CloseAgrees(db: Db, oid: nat, snap: Order, o: Order, fee: Fee, k: nat, slot: Slot, bat: Battery)
    requires Agree(db) && oid < |db.orders| && db.orders[oid] == snap && snap.status == Renting
    requires o.user == snap.user && !Active(o)
    ensures Agree(OrKeep(CloseTx(db, oid, snap, o, fee, k, slot, snap.battery, bat), db))
  {
    var r := CloseTx(db, oid, snap, o, fee, k, slot, snap.battery, bat);
    if r.Some? {
      var db' := r.value;
      forall i | 0 <= i < |db'.orders| && db'.orders[i].status == Renting
        ensures db'.batteries[db'.orders[i].battery].slot == None
      {
        assert i != oid && db.orders[i].battery != snap.battery;
      }
      forall k': nat | k' < |db'.slots| && Houses(db'.slots[k']) && db'.slots[k'].battery.value < |db'.batteries|
        ensures db'.batteries[db'.slots[k'].battery.value].slot == Some(k')
      {
        if k' != k { assert db.batteries[db.slots[k'].battery.value].slot == Some(k'); }
      }
    }
  }

  lemma DetectAgrees(db: Db, cab: nat, slotNo: nat, b: nat, soc: int, tempOk: bool, now: int)
    requires Agree(db)
    ensures Agree(OrKeep(DetectReturn(db, cab, slotNo, b, soc, tempOk, now), db))
  {
    var found, k := LatestRental(db.orders, b), FindSlot(db.slots, cab, slotNo);
    if k.Some? && b < |db.batteries| && found.Some? && db.orders[found.value].status == Renting {
      var snap := db.orders[found.value];
      if snap.rule < |db.rules| {
        var duration := if Elapsed(snap, now) < 0 then 0 else Elapsed(snap, now);
        var fee := FeeOf(db.rules[snap.rule], duration);
        var o := Closed(snap, cab, k.value, fee.total, duration)
                 .(exceptionFee := 0, status := if NeedsReview(db, found, b, soc, tempOk) then Disputed else Completed);
        CloseAgrees(db, found.value, snap, o, fee, k.value, db.slots[k.value].(lock := 1),
            db.batteries[b].(soc := soc));
      }
    }
  }

  lemma ManualAgrees(db: Db, oid: nat, cab: nat, slotNo: nat, now: int)
    requires Agree(db)
    ensures Agree(OrKeep(ManualReturn(db, oid, cab, slotNo, now), db))
  {
    var k := FindSlot(db.slots, cab, slotNo);
    if ManualReturn(db, oid, cab, slotNo, now).Some? {
      var snap := db.orders[oid];
      var fee := FeeOf(db.rules[snap.rule], Elapsed(snap, now));
      var o := Closed(snap, cab, k.value, fee.total, Elapsed(snap, now)).(status := Completed);
      CloseAgrees(db, oid, snap, o, fee, k.value, db.slots[k.value], db.batteries[snap.battery]);
    }
  }

  // ---------- scanning ----------

  lemma CreateAbnormalQuiet(db: Db, u: nat, cab: nat, slotNo: Option<nat>, reason: Reason, now: int)
    ensures Quiet(db, OrKeep(CreateAbnormal(db, u, cab, slotNo, reason, now), db))
  {
    var last := OrKeep(CreateAbnormal(db, u, cab, slotNo, reason, now), db);
    forall i | 0 <= i < |last.orders| && Active(last.orders[i])
      ensures i < |db.orders| && last.orders[i] == db.orders[i] {}
  }

  lemma ScanAgrees(db: Db, u: nat, cab: nat, slotNo: Option<nat>, now: int)
    requires Agree(db)
    ensures Agree(Scan(db, u, cab, slotNo, now).db)
  {
    var marked, no, reason, k := ScanCases(db, u, cab, slotNo, now);
    QuietAgrees(db, marked);
    CreateAbnormalQuiet(marked, u, cab, no, reason, now);
    QuietAgrees(marked, OrKeep(CreateAbnormal(marked, u, cab, no, reason, now), marked));
    if u < |db.users| { RentAgrees(marked, u, marked.users[u], k, now); }
  }

  // ---------- batteries placed on somebody's word ----------

  predicate HousedElsewhere(db: Db, b: nat, k: nat) {
    exists j: nat | j < |db.slots| :: j != k && Houses(db.slots[j]) && db.slots[j].battery.value == b
  }

  /** AssignBattery checks the slot but not the battery. */
  predicate AssignFits(db: Db, b: nat, cab: nat, no: nat) {
    var k := FindSlot(db.slots, cab, no);
    || k.None? || db.slots[k.value].status == Occupied || b >= |db.batteries|
    || (!RentedOut(db, b) && !HousedElsewhere(db, b, k.value))
  }

  lemma PlacedAgreesIff(db: Db, db': Db, b: nat, k: nat)
    requires Agree(db) && b < |db.batteries| == |db'.batteries| && k < |db.slots| == |db'.slots|
    requires db'.orders == db.orders && db'.batteries == db.batteries[b := db'.batteries[b]]
        && db'.batteries[b].slot == Some(k)
    requires db'.slots == db.slots[k := db'.slots[k]] && db'.slots[k].battery == Some(b)
    ensures Agree(db') <==> !RentedOut(db, b) && !HousedElsewhere(db, b, k)
  {
    if HousedElsewhere(db, b, k) {
      var j: nat :| j < |db.slots| && j != k && Houses(db.slots[j]) && db.slots[j].battery.value == b;
      assert db'.slots[j] == db.slots[j] && db'.batteries[b].slot == Some(k);
    }
    if RentedOut(db, b) {
      var i :| 0 <= i < |db.orders| && db.orders[i].status == Renting && db.orders[i].battery == b;
      assert db'.orders[i].status == Renting && db'.batteries[b].slot == Some(k);
    }
  }

  lemma AssignAgreesIff(db: Db, b: nat, cab: nat, no: nat)
    requires Agree(db)
    ensures Agree(OrKeep(Assign(db, b, cab, no), db)) <==> AssignFits(db, b, cab, no)
  {
    if Assign(db, b, cab, no).Some? {
      PlacedAgreesIff(db, Assign(db, b, cab, no).value, b, FindSlot(db.slots, cab, no).value);
    }
  }

  /** The battery a slot says it holds points back at it. */
  predicate PointsBack(db: Db, battery: Option<nat>, k: nat) {
    battery.Some? && battery.value < |db.batteries| ==> db.batteries[battery.value].slot == Some(k)
  }

  /** One entry of a slot report. A known battery must be free for the slot; a blank one empties it; an unknown one
      leaves the slot's battery, which must then point back if the slot becomes occupied. */
  predicate EntryFits(db: Db, cab: nat, no: nat, occupied: bool, b: Option<nat>) {
    var found := FindSlot(db.slots, cab, no);
    var known := b.Some? && b.value < |db.batteries|;
    if found.None? then !(occupied && known) || PointsBack(db, b, |db.slots|)
    else
      var slot := db.slots[found.value];
      var fills := if slot.status in {Unlocking, SlotReturning} then false else occupied;
      if known then !RentedOut(db, b.value) && !HousedElsewhere(db, b.value, found.value)
      else b.None? || !fills || PointsBack(db, slot.battery, found.value)
  }

  lemma EntryAgreesIff(db: Db, cab: nat, no: nat, occupied: bool, b: Option<nat>, lock: int, soc: int)
    requires Agree(db)
    ensures Agree(SlotEntry(db, cab, no, occupied, b, lock, soc)) <==> EntryFits(db, cab, no, occupied, b)
  {
    var db' := SlotEntry(db, cab, no, occupied, b, lock, soc);
    var found := FindSlot(db.slots, cab, no);
    if found.None? {
      AppendedAgreesIff(db, db');
    } else if b.Some? && b.value < |db.batteries| {
      PlacedAgreesIff(db, db', b.value, found.value);
    } else {
      RelabelledAgreesIff(db, db', found.value);
    }
  }

  lemma AppendedAgreesIff(db: Db, db': Db)
    requires Agree(db) && |db'.slots| == |db.slots| + 1
    requires db' == db.(slots := db.slots + [db'.slots[|db.slots|]])
    ensures var slot := db'.slots[|db.slots|];
            Agree(db') <==> (Houses(slot) ==> PointsBack(db, slot.battery, |db.slots|))
  {
    var n := |db.slots|;
    if Houses(db'.slots[n]) ==> PointsBack(db, db'.slots[n].battery, n) {
      forall k: nat | k < |db'.slots| && Houses(db'.slots[k]) && db'.slots[k].battery.value < |db'.batteries|
        ensures db'.batteries[db'.slots[k].battery.value].slot == Some(k)
      {
        if k < n { assert db'.slots[k] == db.slots[k]; }
      }
    }
  }

  lemma RelabelledAgreesIff(db: Db, db': Db, k: nat)
    requires Agree(db) && k < |db.slots| == |db'.slots|
    requires db' == db.(slots := db.slots[k := db'.slots[k]])
    requires db'.slots[k].battery == None || db'.slots[k].battery == db.slots[k].battery
    ensures Agree(db') <==> (Houses(db'.slots[k]) ==> PointsBack(db, db.slots[k].battery, k))
  {
    if Houses(db'.slots[k]) ==> PointsBack(db, db.slots[k].battery, k) {
      forall j: nat | j < |db'.slots| && Houses(db'.slots[j]) && db'.slots[j].battery.value < |db'.batteries|
        ensures db'.batteries[db'.slots[j].battery.value].slot == Some(j)
      {
        if j != k { assert db'.slots[j] == db.slots[j]; }
      }
    }
  }

  // ---------- every action, every run ----------

  lemma LostQuiet(db: Db, oid: nat, fee: int, now: int)
    ensures Quiet(db, Apply(db, DoLost(oid, fee, now)))
  {
  }

  lemma OperatorQuiet(db: Db, oid: nat, action: CompAction, now: int)
    requires action != RecreateOrder
    ensures Quiet(db, Apply(db, DoOperator(oid, action, now)))
  {
  }

  lemma DisputeQuiet(db: Db, d: nat, decision: Decision, adjust: int, refund: int)
    ensures Quiet(db, Apply(db, DoHandleDispute(d, decision, adjust, refund)))
  {
  }

  lemma CallbackQuiet(db: Db, cb: Callback)
    ensures Quiet(db, Apply(db, DoCallback(cb)))
  {
  }

  lemma QuietActions(db: Db, a: Action)
    requires a.DoRecharge? || a.DoCallback? || a.DoUnlockFailure? || a.DoLost? || a.DoDamage? || a.DoCreateDispute?
             || a.DoHandleDispute? || (a.DoOperator? && a.action != RecreateOrder) || (a.DoUnlockReport? && !a.unlocked)
    ensures Quiet(db, Apply(db, a))
  {
    hide LostTx, OperatorTx, HandleDisputeTx, CallbackTx;
    match a
    case DoLost(oid, fee, now) => LostQuiet(db, oid, fee, now);
    case DoOperator(oid, action, now) => OperatorQuiet(db, oid, action, now);
    case DoHandleDispute(d, decision, adjust, refund) => DisputeQuiet(db, d, decision, adjust, refund);
    case DoCallback(cb) => CallbackQuiet(db, cb);
    case DoUnlockReport(cab, no, _, now) =>
      var k := FindSlot(db.slots, cab, no);
      if k.Some? { FailLoopQuiet(db, cab, k.value, |db.orders|, now); }
    case _ =>
  }

  /** What to check of the tables before an action. */
  ghost predicate Fits(db: Db, a: Action) {
    match a
    case DoAssign(b, cab, no) => AssignFits(db, b, cab, no)
    case DoSlotEntry(cab, no, occupied, b, _, _) => EntryFits(db, cab, no, occupied, b)
    case _ => ReopensFit(db, a)
  }

  /** An action keeps the agreement if and only if it fits: what it reopens or places finds its battery free. */
  lemma ApplyAgreesIff(db: Db, a: Action)
    requires Linked(db) && Agree(db)
    ensures Agree(Apply(db, a)) <==> Fits(db, a)
  {
    if MayReopen(a) {
      ActionReopened(db, a);
      if ReopensFit(db, a) { ReopenedAgreesIf(db, Apply(db, a), a); }
      if Agree(Apply(db, a)) { ReopenedAgreesOnlyIf(db, Apply(db, a), a); }
    } else {
      match a
      case DoScan(u, cab, no, now) => ScanAgrees(db, u, cab, no, now);
      case DoDetect(cab, no, b, soc, tempOk, now) => DetectAgrees(db, cab, no, b, soc, tempOk, now);
      case DoManual(oid, cab, no, now) => ManualAgrees(db, oid, cab, no, now);
      case DoAssign(b, cab, no) => AssignAgreesIff(db, b, cab, no);
      case DoSlotEntry(cab, no, occupied, b, lock, soc) => EntryAgreesIff(db, cab, no, occupied, b, lock, soc);
      case _ => QuietActions(db, a); QuietAgrees(db, Apply(db, a));
    }
  }

  /** The agreement holds all along a run. */
  ghost predicate AgreesAlong(db: Db, run: seq<Action>) {
    Agree(Run(db, run)) && (run == [] || AgreesAlong(db, run[..|run| - 1]))
  }

  ghost predicate FitsAlong(db: Db, run: seq<Action>) {
    run == [] || (FitsAlong(db, run[..|run| - 1]) && Fits(Run(db, run[..|run| - 1]), run[|run| - 1]))
  }

  lemma {:induction false} RunBase(db: Db, run: seq<Action>)
    requires Base(db)
    ensures Base(Run(db, run))
  {
    if run != [] {
      RunBase(db, run[..|run| - 1]);
      ApplySteps(Run(db, run[..|run| - 1]), run[|run| - 1]);
    }
  }

  /** A run keeps the agreement all along if and only if each of its actions fits when it is taken. */
  lemma {:induction false} RunAgreesIff(db: Db, run: seq<Action>)
    requires Base(db) && Agree(db)
    ensures AgreesAlong(db, run) <==> FitsAlong(db, run)
  {
    if run != [] {
      RunAgreesIff(db, run[..|run| - 1]);
      if AgreesAlong(db, run[..|run| - 1]) {
        RunBase(db, run[..|run| - 1]);
        ApplyAgreesIff(Run(db, run[..|run| - 1]), run[|run| - 1]);
      }
    }
  }

  /** One order is rewritten, renting afterwards or not; nothing else moves. */
  lemma RentingAgainAgreesIff(db: Db, db': Db, oid: nat)
    requires Agree(db) && oid < |db.orders| == |db'.orders| && db.orders[oid].status != Renting
    requires db'.orders == db.orders[oid := db'.orders[oid]] && db'.orders[oid].battery == db.orders[oid].battery
    requires FillsNone(db, db')
    ensures Agree(db') <==> db'.orders[oid].status != Renting || AtLarge(db, db.orders[oid].battery)
  {
    if Agree(db') && db'.orders[oid].status == Renting {
      forall i | 0 <= i < |db.orders| && db.orders[i].status == Renting
        ensures db.orders[i].battery != db.orders[oid].battery
      {
        assert db'.orders[i] == db.orders[i];
        if i < oid { assert db'.orders[i].battery != db'.orders[oid].battery; }
        else { assert db'.orders[oid].battery != db'.orders[i].battery; }
      }
    }
  }

  /** The operator's recreation keeps the agreement if and only if the battery is at large. */
  lemma RecreateAgreesIffAtLarge(db: Db, oid: nat, now: int)
    requires Agree(db) && oid < |db.orders| && db.orders[oid].status == Abnormal && db.orders[oid].comp != CompDone
    requires db.orders[oid].user < |db.users|
    ensures var db' := OperatorTx(db, oid, db.orders[oid], RecreateOrder, now);
            db'.Some? && (Agree(db'.value) <==> AtLarge(db, db.orders[oid].battery))
  {
    RentingAgainAgreesIff(db, OperatorTx(db, oid, db.orders[oid], RecreateOrder, now).value, oid);
  }

  /** One automatic decision to recreate keeps the agreement if and only if the battery check fails, or the battery is
      at large. */
  lemma DecideAgreesIffAtLarge(db: Db, oid: nat, battery: Option<nat>, now: int)
    requires Agree(db) && oid < |db.orders| && db.orders[oid].status == Abnormal && db.orders[oid].comp != CompDone
    requires db.orders[oid].user < |db.users|
    ensures var db' := DecideTx(db, oid, RecreateOrder, battery, now);
            && db'.Some?
            && (Agree(db'.value) <==>
                !BatteryAllows(db, battery, db.orders[oid].battery) || AtLarge(db, db.orders[oid].battery))
  {
    RentingAgainAgreesIff(db, DecideTx(db, oid, RecreateOrder, battery, now).value, oid);
  }
}
