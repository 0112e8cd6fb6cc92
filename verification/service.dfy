/** The handlers as the service runs them: rows are read into locals, changed field by field and saved. Each method
    leaves the tables as the step function of the same handler says. */
module Service {
  import opened Fees
  import opened Models
  import opened Transactions
  import opened Handlers

  class Store {
    var users: seq<User>
    var cabinets: seq<Cabinet>
    var slots: seq<Slot>
    var batteries: seq<Battery>
    var rules: seq<Rule>
    var orders: seq<Order>
    var records: seq<DepositRecord>
    var returned: map<nat, ReturnRecord>
    var payments: seq<Payment>
    var disputes: seq<Dispute>
    var callbackKeys: set<CallbackKey>
    const depositAmt: nat

    ghost function Rows(): Db
      reads this
    {
      Db(users, cabinets, slots, batteries, rules, orders, records, returned, payments, disputes, callbackKeys,
          depositAmt)
    }

    constructor (db: Db)
      ensures Rows() == db
    {
      users, cabinets, slots, batteries, rules := db.users, db.cabinets, db.slots, db.batteries, db.rules;
      orders, records, returned := db.orders, db.records, db.returned;
      payments, disputes, callbackKeys, depositAmt := db.payments, db.disputes, db.callbackKeys, db.depositAmt;
    }

    // ---------- renting ----------

    /** Insert an order; a positive deposit is frozen from the balance as the caller read it. */
    method InsertOrder(user: User, order: Order)
      requires order.user < |users|
      modifies this`users, this`orders, this`records
      ensures Rows() == OpenOrder(old(Rows()), user, order)
    {
      if order.depositAmt > 0 {
        var afterBal := user.balance - order.depositAmt;
        records := records + [DepositRecord(|orders|, order.user, Freeze, order.depositAmt)];
        users := users[order.user := users[order.user].(balance := afterBal)];
      }
      orders := orders + [order];
    }

    /** Returns whether an order was booked; a refused booking leaves the tables alone. */
    method CreateAbnormalOrder(u: nat, cab: nat, slotNo: Option<nat>, reason: Reason, now: int) returns (ok: bool)
      modifies this
      ensures var r := CreateAbnormal(old(Rows()), u, cab, slotNo, reason, now);
              ok == r.Some? && Rows() == OrKeep(r, old(Rows()))
    {
      hide OpenOrder;
      if u >= |users| { return false; }
      if !users[u].active { return false; }
      var found := None;
      if slotNo.Some? && slotNo.value != 0 {
        found := FindSlot(slots, cab, slotNo.value);
      }
      if found.None? {
        found := FirstOccupied(slots, cab);
      }
      if found.None? { return false; }
      ok := BookAbnormal(u, found.value, reason, now);
    }

    method BookAbnormal(u: nat, k: nat, reason: Reason, now: int) returns (ok: bool)
      requires u < |users| && users[u].active && k < |slots|
      modifies this`users, this`orders, this`records
      ensures var r := AbnormalTx(old(Rows()), u, old(users)[u], k, reason, now);
              ok == r.Some? && Rows() == OrKeep(r, old(Rows()))
    {
      var user, slot := users[u], slots[k];
      var rule := DefaultRule(rules);
      if rule.None? { return false; }
      var due := 0;
      if !user.depositFree {
        due := depositAmt;
        if user.balance < due { return false; }
      }
      if slot.battery.None? || slot.battery.value >= |batteries| { return false; }
      var order := NewOrder(u, slot.battery.value, slot.cabinet, k, rule.value, due, now);
      InsertOrder(user, order.(status := Abnormal, startTime := None, billing := false, reason := reason));
      return true;
    }

    method ScanAndRent(u: nat, cab: nat, slotNo: Option<nat>, now: int) returns (ok: bool)
      modifies this
      ensures Scanned(Rows(), ok) == Scan(old(Rows()), u, cab, slotNo, now)
    {
      if HasActive(orders, u) || cab >= |cabinets| { return false; }
      var cabinet := cabinets[cab];
      if cabinet.status != Online {
        ok := CreateAbnormalOrder(u, cab, slotNo, CabinetOffline, now);
        return;
      }
      if cabinet.lastOnline.Some? && now - cabinet.lastOnline.value > 300 {
        cabinets := cabinets[cab := cabinet.(status := Offline)];
        ok := CreateAbnormalOrder(u, cab, slotNo, CabinetOffline, now);
        if ok { return; }
      }
      ok := RentOnline(u, cab, slotNo, now);
    }

    method RentOnline(u: nat, cab: nat, slotNo: Option<nat>, now: int) returns (ok: bool)
      modifies this
      ensures Scanned(Rows(), ok) == ScanOnline(old(Rows()), u, cab, slotNo, now)
    {
      if u >= |users| || !users[u].active { return false; }
      var user := users[u];
      var found := FirstOccupied(slots, cab);
      if slotNo.Some? {
        found := FindSlot(slots, cab, slotNo.value);
      }
      if found.None? { return false; }
      var k := found.value;
      var slot := slots[k];
      if slotNo.Some? && slot.status == Fault {
        ok := CreateAbnormalOrder(u, cab, Some(slot.slotNo), LockStuck, now);
        return;
      }
      if slot.status != Occupied || slot.battery.None? || slot.battery.value >= |batteries| {
        ok := CreateAbnormalOrder(u, cab, Some(slot.slotNo), BatteryMissing, now);
        return;
      }
      var battery := batteries[slot.battery.value];
      if battery.status != InCabinet || battery.soc < 20 {
        slots := slots[k := slot.(status := Fault)];
        ok := CreateAbnormalOrder(u, cab, Some(slot.slotNo), BatteryMissing, now);
        return;
      }
      if slot.lock != 1 {
        ok := CreateAbnormalOrder(u, cab, Some(slot.slotNo), LockStuck, now);
        return;
      }
      ok := RentSlot(u, k, now);
    }

    method RentSlot(u: nat, k: nat, now: int) returns (ok: bool)
      requires u < |users| && Rentable(Rows(), k)
      modifies this
      ensures var r := RentTx(old(Rows()), u, old(users)[u], k, now); ok == r.Some? && Rows() == OrKeep(r, old(Rows()))
    {
      var user, slot := users[u], slots[k];
      var b := slot.battery.value;
      var rule := DefaultRule(rules);
      if rule.None? { return false; }
      var due := 0;
      if !user.depositFree {
        due := depositAmt;
        if user.balance < due { return false; }
      }
      InsertOrder(user, NewOrder(u, b, slot.cabinet, k, rule.value, due, now));
      slots := slots[k := slot.(status := Unlocking)];
      batteries := batteries[b := batteries[b].(status := InUse, slot := None)];
      return true;
    }

    method ReportUnlockFailure(u: nat, oid: nat, reason: Reason) returns (ok: bool)
      modifies this
      ensures var r := UnlockFailure(old(Rows()), u, oid, reason); ok == r.Some? && Rows() == OrKeep(r, old(Rows()))
    {
      if oid >= |orders| || orders[oid].user != u { return false; }
      var order := orders[oid];
      if order.status != Pending && order.status != Renting { return false; }
      var why := reason;
      if why != DoorNotOpen && why != BatteryMissing && why != LockStuck {
        why := DoorNotOpen;
      }
      order := order.(status := Abnormal, reason := why, billing := false);
      order := order.(action := CompNone, comp := CompOpen, startTime := None);
      orders := orders[oid := order];
      return true;
    }

    // ---------- returning ----------

    method ReturnDetected(cab: nat, slotNo: nat, b: nat, soc: int, tempOk: bool, now: int) returns (ok: bool)
      modifies this
      ensures var r := DetectReturn(old(Rows()), cab, slotNo, b, soc, tempOk, now);
              ok == r.Some? && Rows() == OrKeep(r, old(Rows()))
    {
      var found := FindSlot(slots, cab, slotNo);
      if found.None? || b >= |batteries| { return false; }
      var k := found.value;
      var rental := LatestRental(orders, b);
      if rental.None? { return false; }
      var oid := rental.value;
      var order := orders[oid];
      if order.status == Returning { return true; }
      var judge := Judge(true, true, 10 <= soc <= 100, tempOk);
      if order.battery >= |batteries| || order.user >= |users| {
        judge := judge.(userMatch := false);
      }
      var category := Classify(judge, true, batteries[b].status);
      var needManual := category == SuspectSwapped || category == Unclaimed;
      ok := SettleRental(oid, needManual, cab, k, b, soc, now);
    }

    method SettleRental(oid: nat, needManual: bool, cab: nat, k: nat, b: nat, soc: int, now: int) returns (ok: bool)
      requires oid < |orders| && k < |slots| && b < |batteries|
      modifies this
      ensures var r := DetectTx(old(Rows()), oid, old(orders)[oid], needManual, cab, k, b, soc, now);
              ok == r.Some? && Rows() == OrKeep(r, old(Rows()))
    {
      var order := orders[oid];
      if order.rule >= |rules| { return false; }
      var durationSec := 0;
      if order.startTime.Some? {
        durationSec := now - order.startTime.value;
      }
      if durationSec < 0 {
        durationSec := 0;
      }
      var totalFee, capHit, days := CalcFee(durationSec, rules[order.rule]);
      var settled := order.(toCabinet := Some(cab), toSlot := Some(k), durationSec := durationSec);
      settled := settled.(totalFee := totalFee, paidFee := totalFee, refundAmt := Refundable(order, totalFee));
      settled := settled.(crossCabinet := order.fromCabinet != cab, exceptionFee := 0, deposit := Settled);
      settled := settled.(status := Completed);
      if needManual {
        settled := settled.(status := Disputed);
      }
      var fee := Fee(totalFee, capHit, days);
      ok := SaveReturn(oid, order, settled, fee, k, slots[k].(lock := 1), b, batteries[b].(soc := soc));
    }

    /** What both returns write: settlement, order, return record, slot and battery. A second return record
        is refused. */
    method SaveReturn(oid: nat, order: Order, settled: Order, fee: Fee, k: nat, slot: Slot, b: nat, battery: Battery)
      returns (ok: bool)
      requires settled.user == order.user && oid < |orders| && k < |slots| && b < |batteries|
      modifies this
      ensures var r := CloseTx(old(Rows()), oid, order, settled, fee, k, slot, b, battery);
              ok == r.Some? && Rows() == OrKeep(r, old(Rows()))
    {
      if order.user >= |users| || oid in returned { return false; }
      var refund := SettleDeposit(oid, order, fee.total);
      orders := orders[oid := settled];
      returned := returned[oid := ReturnRecord(k, b, fee, settled.crossCabinet)];
      slots := slots[k := slot.(status := Occupied, battery := Some(b))];
      batteries := batteries[b := battery.(status := InCabinet, slot := Some(k))];
      return true;
    }

    /** The settlement both returns write out: the fee comes out of the deposit, the rest goes back. */
    method SettleDeposit(oid: nat, order: Order, totalFee: nat) returns (refund: nat)
      requires order.user < |users|
      modifies this`users, this`records
      ensures refund == Refundable(order, totalFee)
      ensures users == old(users)[order.user := old(users)[order.user]
          .(balance := old(users)[order.user].balance + refund)]
      ensures records == old(records) + Settlement(oid, order, totalFee)
    {
      refund := 0;
      if order.deposit == Frozen && order.depositAmt > 0 {
        var user := users[order.user];
        if totalFee >= order.depositAmt {
          records := records + [DepositRecord(oid, order.user, Deduct, order.depositAmt)];
        } else {
          refund := order.depositAmt - totalFee;
          user := user.(balance := user.balance + refund);
          records := records + [DepositRecord(oid, order.user, Deduct, totalFee)];
          records := records + [DepositRecord(oid, order.user, Release, refund)];
          users := users[order.user := user];
        }
      }
    }

    method ReturnManually(oid: nat, cab: nat, slotNo: nat, now: int) returns (ok: bool)
      modifies this
      ensures var r := ManualReturn(old(Rows()), oid, cab, slotNo, now);
              ok == r.Some? && Rows() == OrKeep(r, old(Rows()))
    {
      if oid >= |orders| || orders[oid].status != Renting { return false; }
      var order := orders[oid];
      if order.battery >= |batteries| { return false; }
      var found := FindSlot(slots, cab, slotNo);
      if found.None? || slots[found.value].status == Occupied { return false; }
      if order.rule >= |rules| { return false; }
      var durationSec := 0;
      if order.startTime.Some? {
        durationSec := now - order.startTime.value;
      }
      var totalFee, capHit, days := CalcFee(durationSec, rules[order.rule]);
      var k := found.value;
      var settled := order.(status := Completed, toCabinet := Some(cab), toSlot := Some(k), durationSec := durationSec);
      settled := settled.(totalFee := totalFee, paidFee := totalFee, refundAmt := Refundable(order, totalFee));
      settled := settled.(crossCabinet := order.fromCabinet != cab, deposit := Settled);
      var fee := Fee(totalFee, capHit, days);
      ok := SaveReturn(oid, order, settled, fee, k, slots[k], order.battery, batteries[order.battery]);
    }

    // ---------- operator actions ----------

    method MarkLost(oid: nat, feeCustom: int, now: int) returns (ok: bool)
      modifies this
      ensures var r := if oid < |old(orders)| then LostTx(old(Rows()), oid, old(orders)[oid], feeCustom, now) else None;
              ok == r.Some? && Rows() == OrKeep(r, old(Rows()))
    {
      hide FeeOf, LostSettlement;
      if oid >= |orders| { return false; }
      var order := orders[oid];
      if order.status != Renting && order.status != Disputed { return false; }
      if order.rule >= |rules| || order.user >= |users| { return false; }
      var totalFee, lostFee, dur := LostFees(order, rules[order.rule], feeCustom, now);
      var refund := SettleLost(oid, order, totalFee);
      order := order.(status := Lost, durationSec := dur, totalFee := totalFee, exceptionFee := lostFee);
      order := order.(deposit := Settled, refundAmt := refund);
      orders := orders[oid := order];
      if order.battery < |batteries| {
        batteries := batteries[order.battery := batteries[order.battery].(status := BatteryLost)];
      }
      return true;
    }

    method LostFees(order: Order, rule: Rule, feeCustom: int, now: int) returns (totalFee: nat, lostFee: nat, dur: int)
      ensures dur == Elapsed(order, now)
      ensures lostFee == if feeCustom > 0 then feeCustom else rule.lostFee
      ensures totalFee == Max(FeeOf(rule, dur).total, lostFee)
    {
      dur := 0;
      if order.startTime.Some? {
        dur := now - order.startTime.value;
      }
      var baseFee, capHit, days := CalcFee(dur, rule);
      lostFee := rule.lostFee;
      if feeCustom > 0 {
        lostFee := feeCustom;
      }
      totalFee := baseFee;
      if totalFee < lostFee {
        totalFee := lostFee;
      }
    }

    method SettleLost(oid: nat, order: Order, totalFee: nat) returns (refund: nat)
      requires order.user < |users|
      modifies this`users, this`records
      ensures refund == Refundable(order, totalFee)
      ensures users == old(users)[order.user := old(users)[order.user]
          .(balance := old(users)[order.user].balance + refund)]
      ensures records == old(records) + LostSettlement(oid, order, totalFee)
    {
      refund := 0;
      if order.deposit == Frozen && order.depositAmt > 0 {
        var depositUsed := order.depositAmt;
        if depositUsed > totalFee {
          refund := depositUsed - totalFee;
          var user := users[order.user];
          users := users[order.user := user.(balance := user.balance + refund)];
          records := records + [DepositRecord(oid, order.user, Release, refund)];
        }
        if totalFee > 0 {
          var act := totalFee;
          if depositUsed < totalFee {
            act := depositUsed;
          }
          records := records + [DepositRecord(oid, order.user, Deduct, act)];
        }
      }
    }

    method MarkDamage(oid: nat, feeCustom: int) returns (ok: bool)
      modifies this`orders, this`batteries
      ensures var r := if oid < |old(orders)| then DamageTx(old(Rows()), oid, old(orders)[oid], feeCustom) else None;
              ok == r.Some? && Rows() == OrKeep(r, old(Rows()))
    {
      if oid >= |orders| { return false; }
      var order := orders[oid];
      if order.status != Renting && order.status != Completed && order.status != Disputed { return false; }
      if order.rule >= |rules| { return false; }
      var damageFee: nat := rules[order.rule].damageFee;
      if feeCustom > 0 {
        damageFee := feeCustom;
      }
      order := order.(exceptionFee := order.exceptionFee + damageFee);
      order := order.(totalFee := order.totalFee + damageFee);
      orders := orders[oid := order];
      if order.battery < |batteries| {
        batteries := batteries[order.battery := batteries[order.battery].(status := Damaged)];
      }
      return true;
    }

    method CreateDispute(u: nat, oid: nat) returns (ok: bool)
      modifies this`orders, this`disputes
      ensures var r := CreateDisputeTx(old(Rows()), u, oid); ok == r.Some? && Rows() == OrKeep(r, old(Rows()))
    {
      if oid >= |orders| || orders[oid].user != u { return false; }
      disputes := disputes + [Dispute(oid, u, Open, 0, 0)];
      orders := orders[oid := orders[oid].(status := Disputed)];
      return true;
    }

    method GrantDispute(oid: nat, adjustFee: int, refundAmt: int)
      requires oid < |orders| && orders[oid].user < |users|
      modifies this`users, this`orders, this`records
      ensures Rows() == Post(old(Rows()), oid, Adjusted(old(orders)[oid], adjustFee, refundAmt),
                             if refundAmt > 0 then refundAmt else 0,
                             if refundAmt > 0
                             then [DepositRecord(oid, old(orders)[oid].user, Refund, refundAmt)] else [])
    {
      var order := orders[oid];
      if adjustFee > 0 {
        var total := order.totalFee - adjustFee;
        if total < 0 {
          total := 0;
        }
        order := order.(totalFee := total);
      }
      if refundAmt > 0 {
        order := order.(refundAmt := order.refundAmt + refundAmt);
        var user := users[order.user];
        user := user.(balance := user.balance + refundAmt);
        users := users[order.user := user];
        records := records + [DepositRecord(oid, order.user, Refund, refundAmt)];
      }
      orders := orders[oid := order];
    }

    method HandleDispute(d: nat, decision: Decision, adjustFee: int, refundAmt: int) returns (ok: bool)
      modifies this
      ensures var r := HandleDisputeTx(old(Rows()), d, decision, adjustFee, refundAmt);
              ok == r.Some? && Rows() == OrKeep(r, old(Rows()))
    {
      if d >= |disputes| { return false; }
      var dispute := disputes[d];
      if dispute.status != Open && dispute.status != Reviewing { return false; }
      if (decision == Resolve || decision == Partial) && dispute.order < |orders|
          && orders[dispute.order].user < |users| {
        GrantDispute(dispute.order, adjustFee, refundAmt);
      }
      var status := Resolved;
      if decision == Reject {
        status := Rejected;
      }
      disputes := disputes[d := dispute.(status := status, adjustFee := adjustFee, refundAmt := refundAmt)];
      return true;
    }

    // ---------- compensation ----------

    /** A held deposit is paid back in full. */
    method ReleaseDeposit(oid: nat, order: Order)
      requires order.user < |users| && Held(order) > 0
      modifies this`users, this`records
      ensures |users| == |old(users)| && records == old(records) + RefundAll(oid, order)
      ensures users == old(users)[order.user := old(users)[order.user]
                                                  .(balance := old(users)[order.user].balance + Held(order))]
    {
      var user := users[order.user];
      user := user.(balance := user.balance + order.depositAmt);
      users := users[order.user := user];
      records := records + [DepositRecord(oid, order.user, Release, order.depositAmt)];
    }

    method HandleAbnormalCompensation(oid: nat, action: CompAction, now: int) returns (ok: bool)
      modifies this
      ensures var r := if oid < |old(orders)| then OperatorTx(old(Rows()), oid, old(orders)[oid], action, now)
          else None;
              ok == r.Some? && Rows() == OrKeep(r, old(Rows()))
    {
      if oid >= |orders| { return false; }
      var order := orders[oid];
      if order.status != Abnormal || order.comp == CompDone || order.user >= |users| { return false; }
      match action {
        case RefundDeposit =>
          if order.deposit == Frozen && order.depositAmt > 0 {
            ReleaseDeposit(oid, order);
            order := order.(deposit := Settled, refundAmt := order.depositAmt);
          }
          order := order.(status := Compensated, comp := CompDone);
        case RecreateOrder =>
          order := order.(status := Renting, billing := true, startTime := Some(now), comp := CompDone);
        case ManualReview =>
          order := order.(comp := CompReview);
        case _ => return false;
      }
      orders := orders[oid := order.(action := action)];
      return true;
    }

    /** The battery the caller passed on may also be lost or damaged; the order's own must be in use. */
    method CheckBattery(order: Order, battery: Option<nat>) returns (ok: bool)
      ensures ok == BatteryAllows(Rows(), battery, order.battery)
    {
      var b := order.battery;
      var allowed := {InUse};
      if battery.Some? {
        b := battery.value;
        allowed := {InUse, BatteryLost, Damaged};
      }
      ok := b < |batteries| && batteries[b].status in allowed;
    }

    method DecideCompensation(oid: nat, suggested: CompAction, battery: Option<nat>, now: int) returns (ok: bool)
      modifies this`users, this`orders, this`records
      ensures var r := DecideTx(old(Rows()), oid, suggested, battery, now);
              ok == r.Some? && Rows() == OrKeep(r, old(Rows()))
    {
      hide BatteryAllows;
      if oid >= |orders| || orders[oid].comp == CompDone || orders[oid].user >= |users| { return false; }
      var order := orders[oid];
      var action, status, billing, deposit, refund := suggested, order.status, order.billing, order.deposit,
          order.refundAmt;
      var comp, startTime := CompOpen, order.startTime;
      match suggested {
        case RecreateOrder =>
          var allowed := CheckBattery(order, battery);
          if allowed {
            status, billing, startTime, comp := Renting, true, Some(now), CompDone;
          } else {
            action := ManualReview;
          }
        case RefundDeposit =>
          if order.deposit == Frozen && order.depositAmt > 0 {
            ReleaseDeposit(oid, order);
            deposit, refund := Settled, order.depositAmt;
          }
          status, comp := Compensated, CompDone;
        case _ =>
          action, comp := ManualReview, CompReview;
      }
      order := order.(status := status, billing := billing, action := action, comp := comp);
      order := order.(deposit := deposit, refundAmt := refund, startTime := startTime);
      orders := orders[oid := order];
      return true;
    }

    /** The body of both decision loops, on a listed order. */
    method DecideListed(oid: nat, limit: int, now: int)
      requires oid < |orders|
      modifies this`users, this`orders, this`records
      ensures Rows() == OrKeep(DecideOne(old(Rows()), oid, limit, now), old(Rows()))
    {
      var order := orders[oid];
      var done;
      if order.createdAt + limit < now || order.battery >= |batteries| || order.fromSlot >= |slots| {
        done := DecideCompensation(oid, ManualReview, None, now);
        return;
      }
      var battery, slot := batteries[order.battery], slots[order.fromSlot];
      var takenOut := false;
      if battery.status == InUse {
        takenOut := true;
      } else if slot.status == Empty {
        takenOut := true;
      } else if slot.battery.None? || slot.battery.value != order.battery {
        takenOut := true;
      }
      var stillInside := slot.status == Occupied && battery.status == InCabinet && slot.battery == Some(order.battery);
      if takenOut {
        if order.createdAt + 3600 < now {
          done := DecideCompensation(oid, ManualReview, Some(order.battery), now);
        } else {
          done := DecideCompensation(oid, RecreateOrder, Some(order.battery), now);
        }
      } else if stillInside {
        done := DecideCompensation(oid, RefundDeposit, Some(order.battery), now);
      } else {
        done := DecideCompensation(oid, ManualReview, Some(order.battery), now);
      }
    }

    static lemma UnlockLoopUnfolds(db: Db, cab: nat, k: nat, n: nat, now: int)
      requires n < |db.orders|
      ensures UnlockLoop(db, cab, k, n + 1, now)
           == UnlockLoop(if AwaitsUnlock(db.orders[n], cab, k) then OrKeep(DecideOne(db, n, 48 * 3600, now), db)
               else db,
                         cab, k, n, now)
    {
    }

    static lemma RecoveryLoopUnfolds(db: Db, cab: nat, n: nat, now: int)
      requires n < |db.orders|
      ensures RecoveryLoop(db, cab, n + 1, now)
           == RecoveryLoop(if AwaitsRecovery(db.orders[n], cab)
               then OrKeep(DecideOne(db, n, 24 * 3600, now), db) else db,
                           cab, n, now)
    {
    }

    static lemma DecideOneRewrites(db: Db, oid: nat, limit: int, now: int)
      requires oid < |db.orders|
      ensures var orders := OrKeep(DecideOne(db, oid, limit, now), db).orders;
              |orders| == |db.orders| && forall i | 0 <= i < |orders| && i != oid :: orders[i] == db.orders[i]
    {
    }

    /** The list is read once; every decision then works on the tables as the earlier ones left them. */
    method HandleUnlockSuccess(cab: nat, k: nat, now: int)
      modifies this`users, this`orders, this`records
      ensures Rows() == UnlockLoop(old(Rows()), cab, k, |old(orders)|, now)
    {
      var listed := orders;
      var n: nat := |listed|;
      while n > 0
        invariant n <= |listed| == |orders|
        invariant forall i | 0 <= i < n :: orders[i] == listed[i]
        invariant UnlockLoop(Rows(), cab, k, n, now) == UnlockLoop(old(Rows()), cab, k, |listed|, now)
      {
        n := n - 1;
        UnlockLoopUnfolds(Rows(), cab, k, n, now);
        DecideOneRewrites(Rows(), n, 48 * 3600, now);
        if AwaitsUnlock(listed[n], cab, k) {
          DecideListed(n, 48 * 3600, now);
        }
      }
    }

    method HandleCabinetRecovered(cab: nat, now: int)
      modifies this`users, this`orders, this`records
      ensures Rows() == RecoveryLoop(old(Rows()), cab, |old(orders)|, now)
    {
      var listed := orders;
      var n: nat := |listed|;
      while n > 0
        invariant n <= |listed| == |orders|
        invariant forall i | 0 <= i < n :: orders[i] == listed[i]
        invariant RecoveryLoop(Rows(), cab, n, now) == RecoveryLoop(old(Rows()), cab, |listed|, now)
      {
        n := n - 1;
        RecoveryLoopUnfolds(Rows(), cab, n, now);
        DecideOneRewrites(Rows(), n, 24 * 3600, now);
        if AwaitsRecovery(listed[n], cab) {
          DecideListed(n, 24 * 3600, now);
        }
      }
    }

    method HandleUnlockFailure(cab: nat, k: nat, now: int)
      modifies this`orders
      ensures Rows() == FailLoop(old(Rows()), cab, k, |old(orders)|, now)
    {
      var listed := orders;
      var n: nat := |listed|;
      while n > 0
        invariant n <= |listed| == |orders|
        invariant forall i | 0 <= i < n :: orders[i] == listed[i]
        invariant FailLoop(Rows(), cab, k, n, now) == FailLoop(old(Rows()), cab, k, |listed|, now)
      {
        n := n - 1;
        var order := listed[n];
        if order.fromCabinet == cab && order.fromSlot == k && (order.status == Pending || order.status == Renting) {
          if order.startTime.Some? && now - order.startTime.value < 300 { continue; }
          order := order.(status := Abnormal, reason := LockStuck, billing := false);
          orders := orders[n := order.(action := CompNone, comp := CompOpen, startTime := None)];
        }
      }
    }

    /** What LockReport does once its report is stored, also when that was a duplicate or out of order. */
    method LockReport(cab: nat, slotNo: nat, unlock: bool, unlocked: bool, now: int)
      modifies this
      ensures Rows() == LockEffect(old(Rows()), cab, slotNo, unlock, unlocked, now)
    {
      if !unlock { return; }
      var found := FindSlot(slots, cab, slotNo);
      if found.None? { return; }
      if unlocked {
        slots := slots[found.value := slots[found.value].(status := Empty, battery := None, lock := 1)];
        HandleUnlockSuccess(cab, found.value, now);
      } else {
        HandleUnlockFailure(cab, found.value, now);
      }
    }

    method ReceiveHeartbeat(cab: nat, accepted: bool, online: bool, now: int)
      modifies this
      ensures Rows() == Heartbeat(old(Rows()), cab, accepted, online, now)
    {
      if cab >= |cabinets| { return; }
      if accepted {
        cabinets := cabinets[cab := Cabinet(Online, Some(now))];
      }
      if online && cabinets[cab].status == Offline {
        cabinets := cabinets[cab := Cabinet(Online, Some(now))];
        HandleCabinetRecovered(cab, now);
      }
    }

    // ---------- payments and stock ----------

    method HandleCallback(cb: Callback) returns (credited: bool)
      modifies this
      ensures Rows() == CallbackTx(old(Rows()), cb)
      ensures credited <==> cb.pay < |old(payments)| && old(payments)[cb.pay].status != PaySuccess
                            && payments[cb.pay].status == PaySuccess
    {
      credited := false;
      if KeyOf(cb) in callbackKeys { return; }
      callbackKeys := callbackKeys + {KeyOf(cb)};
      if cb.pay >= |payments| { return; }
      var pay := payments[cb.pay];
      pay := pay.(callbacks := pay.callbacks + 1);
      if pay.status == PaySuccess || pay.status == PayRefunded {
        payments := payments[cb.pay := pay];
        return;
      }
      if (cb.amount > 0 && pay.amount != cb.amount) || !cb.success {
        payments := payments[cb.pay := pay.(status := PayFailed)];
        return;
      }
      if pay.user >= |users| { return; }
      var user := users[pay.user];
      user := user.(balance := user.balance + pay.amount);
      users := users[pay.user := user];
      payments := payments[cb.pay := pay.(status := PaySuccess)];
      if pay.order.Some? && pay.order.value < |orders| {
        var order := orders[pay.order.value];
        orders := orders[pay.order.value := order.(paidFee := order.paidFee + pay.amount)];
      }
      credited := true;
    }

    method AssignBattery(b: nat, cab: nat, slotNo: nat) returns (ok: bool)
      modifies this`slots, this`batteries
      ensures var r := Assign(old(Rows()), b, cab, slotNo); ok == r.Some? && Rows() == OrKeep(r, old(Rows()))
    {
      var found := FindSlot(slots, cab, slotNo);
      if found.None? || slots[found.value].status == Occupied || b >= |batteries| { return false; }
      slots := slots[found.value := slots[found.value].(status := Occupied, battery := Some(b))];
      batteries := batteries[b := batteries[b].(status := InCabinet, slot := Some(found.value))];
      return true;
    }

    method ReportSlot(cab: nat, slotNo: nat, occupied: bool, b: Option<nat>, lock: int, soc: int)
      modifies this`slots, this`batteries
      ensures Rows() == SlotEntry(old(Rows()), cab, slotNo, occupied, b, lock, soc)
    {
      var found := FindSlot(slots, cab, slotNo);
      var seen := if occupied then Occupied else Empty;
      var known := b.Some? && b.value < |batteries|;
      if found.None? {
        var slot := Slot(cab, slotNo, None, seen, lock);
        if known {
          slot := slot.(battery := b);
        }
        slots := slots + [slot];
        return;
      }
      var slot := slots[found.value].(lock := lock);
      if slot.status != Unlocking && slot.status != SlotReturning {
        slot := slot.(status := seen);
      }
      if known {
        slot := slot.(battery := b);
        batteries := batteries[b.value := batteries[b.value].(slot := found, soc := soc)];
      } else if b.None? {
        slot := slot.(battery := None);
      }
      slots := slots[found.value := slot];
    }
  }
}
