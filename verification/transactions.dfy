/** One function per database transaction. Where a handler reads a row before it opens its transaction and later
    writes that copy back, the copy is a parameter (`snap`), so that both serial and interleaved runs can use the
    function. None is a rolled-back transaction: nothing is written. */
module Transactions {
  import opened Fees
  import opened Models

  function Put<T>(xs: seq<T>, i: nat, x: T): (r: seq<T>)
    ensures |r| == |xs|
  {
    if i < |xs| then xs[i := x] else xs
  }

  /** Rewrite an order, pay `credit` to its user, and append the deposit records that explain it. */
  function Post(db: Db, oid: nat, o: Order, credit: nat, recs: seq<DepositRecord>): Db
    requires o.user < |db.users|
  {
    var user := db.users[o.user];
    db.(orders := Put(db.orders, oid, o),
        users := db.users[o.user := user.(balance := user.balance + credit)],
        records := db.records + recs)
  }

  function Elapsed(o: Order, now: int): int {
    if o.startTime.Some? then now - o.startTime.value else 0
  }

  // ---------- renting (internal/handlers/rental_service.go) ----------

  function DepositDue(db: Db, snap: User): nat {
    if snap.depositFree then 0 else db.depositAmt
  }

  predicate CanPay(db: Db, snap: User) {
    snap.depositFree || snap.balance >= db.depositAmt
  }

  function NewOrder(u: nat, b: nat, cab: nat, k: nat, rule: nat, due: nat, now: int): Order {
    Order(u, b, cab, k, None, None, Renting, rule, due, if due > 0 then Frozen else Unfrozen,
          0, 0, 0, 0, now, Some(now), 0, false, true, NoReason, CompNone, CompOpen)
  }

  /** Insert an order and freeze its deposit; the balance written is computed from the user row read earlier. */
  function OpenOrder(db: Db, snap: User, o: Order): Db
    requires o.user < |db.users|
  {
    if o.depositAmt == 0 then db.(orders := db.orders + [o])
    else
      db.(orders := db.orders + [o],
          users := db.users[o.user := db.users[o.user].(balance := snap.balance - o.depositAmt)],
          records := db.records + [DepositRecord(|db.orders|, o.user, Freeze, o.depositAmt)])
  }

  predicate Rentable(db: Db, k: nat) {
    && k < |db.slots|
    && db.slots[k].status == Occupied
    && db.slots[k].battery.Some? && db.slots[k].battery.value < |db.batteries|
    && db.batteries[db.slots[k].battery.value].status == InCabinet
    && db.batteries[db.slots[k].battery.value].soc >= 20
    && db.slots[k].lock == 1
  }

  function RentTx(db: Db, u: nat, snap: User, k: nat, now: int): Option<Db> {
    var rule := DefaultRule(db.rules);
    if u >= |db.users| || !Rentable(db, k) || rule.None? || !CanPay(db, snap) then None
    else
      var slot := db.slots[k];
      var b := slot.battery.value;
      var booked := OpenOrder(db, snap, NewOrder(u, b, slot.cabinet, k, rule.value, DepositDue(db, snap), now));
      Some(booked.(slots := db.slots[k := slot.(status := Unlocking)],
                   batteries := db.batteries[b := db.batteries[b].(status := InUse, slot := None)]))
  }

  /** The slot an abnormal order is booked on: the one asked for if it exists, else the first occupied one. */
  function AbnormalSlot(db: Db, cab: nat, slotNo: Option<nat>): Option<nat> {
    if slotNo.Some? && slotNo.value != 0 && FindSlot(db.slots, cab, slotNo.value).Some?
    then FindSlot(db.slots, cab, slotNo.value)
    else FirstOccupied(db.slots, cab)
  }

  /** createAbnormalOrder. A slot without a battery gives battery id 0, which the foreign key rejects. */
  function AbnormalTx(db: Db, u: nat, snap: User, k: nat, reason: Reason, now: int): Option<Db> {
    var rule := DefaultRule(db.rules);
    if u >= |db.users| || !snap.active || k >= |db.slots| || rule.None? || !CanPay(db, snap)
       || db.slots[k].battery.None? || db.slots[k].battery.value >= |db.batteries| then None
    else
      var o := NewOrder(u, db.slots[k].battery.value, db.slots[k].cabinet, k, rule.value, DepositDue(db, snap), now);
      Some(OpenOrder(db, snap, o.(status := Abnormal, startTime := None, billing := false, reason := reason)))
  }

  /** ReportUnlockFailure and the unlock-failure report move an order to abnormal by updating columns in place. */
  function ToAbnormal(o: Order, reason: Reason): Order {
    o.(status := Abnormal, reason := reason, billing := false, action := CompNone, comp := CompOpen, startTime := None)
  }

  // ---------- returning (internal/handlers/return_service.go) ----------

  function DeductRec(oid: nat, o: Order, amount: nat): DepositRecord { DepositRecord(oid, o.user, Deduct, amount) }
  function ReleaseRec(oid: nat, o: Order, amount: nat): DepositRecord { DepositRecord(oid, o.user, Release, amount) }

  function Refundable(o: Order, fee: nat): nat {
    if Held(o) > fee then Held(o) - fee else 0
  }

  function Settlement(oid: nat, o: Order, fee: nat): seq<DepositRecord> {
    if Held(o) == 0 then []
    else if fee >= Held(o) then [DeductRec(oid, o, Held(o))]
    else [DeductRec(oid, o, fee), ReleaseRec(oid, o, Held(o) - fee)]
  }

  function Closed(o: Order, cab: nat, k: nat, fee: nat, duration: int): Order {
    o.(toCabinet := Some(cab), toSlot := Some(k), durationSec := duration, totalFee := fee, paidFee := fee,
       refundAmt := Refundable(o, fee), crossCabinet := o.fromCabinet != cab, deposit := Settled)
  }

  /** The part both return transactions share. A second return record for an order violates the unique index. */
  function CloseTx(db: Db, oid: nat, snap: Order, o: Order, fee: Fee, k: nat, slot: Slot, b: nat,
      bat: Battery): Option<Db>
    requires o.user == snap.user
  {
    if oid >= |db.orders| || snap.user >= |db.users| || k >= |db.slots| || b >= |db.batteries| || oid in db.returned
    then None
    else
      var posted := Post(db, oid, o, Refundable(snap, fee.total), Settlement(oid, snap, fee.total));
      Some(posted.(returned := db.returned[oid := ReturnRecord(k, b, fee, o.crossCabinet)],
                   slots := db.slots[k := slot.(status := Occupied, battery := Some(b))],
                   batteries := db.batteries[b := bat.(status := InCabinet, slot := Some(k))]))
  }

  datatype Judge = Judge(orderValid: bool, userMatch: bool, socOk: bool, tempOk: bool)

  function Evaluate(db: Db, found: Option<nat>, b: nat, soc: int, tempOk: bool): Judge {
    var socOk := 10 <= soc <= 100;
    if found.None? || found.value >= |db.orders| then Judge(false, false, socOk, tempOk)
    else
      var o := db.orders[found.value];
      if o.battery >= |db.batteries| then Judge(true, false, socOk, tempOk)
      else Judge(o.battery == b, o.battery == b && o.user < |db.users|, socOk, tempOk)
  }

  function Classify(j: Judge, found: bool, bat: BatteryStatus): Category {
    if !found && (bat == Repair || bat == Damaged) then RepairInbound
    else if !found then Unclaimed
    else if !j.orderValid || !j.userMatch || !j.socOk then SuspectSwapped
    else Normal
  }

  predicate NeedsReview(db: Db, found: Option<nat>, b: nat, soc: int, tempOk: bool)
    requires b < |db.batteries|
  {
    Classify(Evaluate(db, found, b, soc, tempOk), found.Some?, db.batteries[b].status) in {SuspectSwapped, Unclaimed}
  }

  function DetectTx(db: Db, oid: nat, snap: Order, disputed: bool, cab: nat, k: nat, b: nat, soc: int,
      now: int): Option<Db> {
    if snap.rule >= |db.rules| || k >= |db.slots| || b >= |db.batteries| then None
    else
      var duration := if Elapsed(snap, now) < 0 then 0 else Elapsed(snap, now);
      var fee := FeeOf(db.rules[snap.rule], duration);
      var o := Closed(snap, cab, k, fee.total, duration)
               .(exceptionFee := 0, status := if disputed then Disputed else Completed);
      CloseTx(db, oid, snap, o, fee, k, db.slots[k].(lock := 1), b, db.batteries[b].(soc := soc))
  }

  /** DetectBatteryReturn. Without an order the return record carries order id 0 and the foreign key rejects it. */
  function DetectReturn(db: Db, cab: nat, slotNo: nat, b: nat, soc: int, tempOk: bool, now: int): Option<Db> {
    var k := FindSlot(db.slots, cab, slotNo);
    var found := LatestRental(db.orders, b);
    if k.None? || b >= |db.batteries| || found.None? then None
    else
      var o := db.orders[found.value];
      if o.status == Returning then Some(db)
      else
        DetectTx(db, found.value, o, NeedsReview(db, found, b, soc, tempOk), cab, k.value, b, soc, now)
  }

  function ManualTx(db: Db, oid: nat, snap: Order, bat: Battery, cab: nat, slotNo: nat, now: int): Option<Db> {
    var k := FindSlot(db.slots, cab, slotNo);
    if snap.status != Renting || k.None? || db.slots[k.value].status == Occupied || snap.rule >= |db.rules| then None
    else
      var fee := FeeOf(db.rules[snap.rule], Elapsed(snap, now));
      var o := Closed(snap, cab, k.value, fee.total, Elapsed(snap, now)).(status := Completed);
      CloseTx(db, oid, snap, o, fee, k.value, db.slots[k.value], snap.battery, bat)
  }

  // ---------- operator actions (internal/handlers/op_service.go) ----------

  function Max(a: nat, b: nat): nat { if a < b then b else a }
  function Min(a: nat, b: nat): nat { if a < b then a else b }

  function LostSettlement(oid: nat, o: Order, total: nat): seq<DepositRecord> {
    if Held(o) == 0 then []
    else
      (if Held(o) > total then [ReleaseRec(oid, o, Held(o) - total)] else [])
      + (if total > 0 then [DeductRec(oid, o, Min(total, Held(o)))] else [])
  }

  function LostTx(db: Db, oid: nat, snap: Order, feeCustom: int, now: int): Option<Db> {
    if oid >= |db.orders| || snap.status !in {Renting, Disputed} || snap.rule >= |db.rules| || snap.user >= |db.users|
    then None
    else
      var rule := db.rules[snap.rule];
      var lostFee := if feeCustom > 0 then feeCustom else rule.lostFee;
      var total := Max(FeeOf(rule, Elapsed(snap, now)).total, lostFee);
      var o := snap.(status := Lost, durationSec := Elapsed(snap, now), totalFee := total, exceptionFee := lostFee,
                     deposit := Settled, refundAmt := Refundable(snap, total));
      var posted := Post(db, oid, o, Refundable(snap, total), LostSettlement(oid, snap, total));
      Some(posted.(batteries := SetBatteryStatus(db.batteries, snap.battery, BatteryLost)))
  }

  function SetBatteryStatus(bats: seq<Battery>, b: nat, status: BatteryStatus): seq<Battery> {
    if b < |bats| then bats[b := bats[b].(status := status)] else bats
  }

  function DamageTx(db: Db, oid: nat, snap: Order, feeCustom: int): Option<Db> {
    if oid >= |db.orders| || snap.status !in {Renting, Completed, Disputed} || snap.rule >= |db.rules| then None
    else
      var fee := if feeCustom > 0 then feeCustom else db.rules[snap.rule].damageFee;
      Some(db.(orders := db.orders[oid := snap.(exceptionFee := snap.exceptionFee + fee,
                                                totalFee := snap.totalFee + fee)],
               batteries := SetBatteryStatus(db.batteries, snap.battery, Damaged)))
  }

  function CreateDisputeTx(db: Db, u: nat, oid: nat): Option<Db> {
    if oid >= |db.orders| || db.orders[oid].user != u then None
    else Some(db.(orders := db.orders[oid := db.orders[oid].(status := Disputed)],
                  disputes := db.disputes + [Dispute(oid, u, Open, 0, 0)]))
  }

  datatype Decision = Resolve | Partial | Reject | OtherDecision

  function Adjusted(o: Order, adjust: int, refund: int): Order {
    o.(totalFee := if adjust <= 0 then o.totalFee else if adjust > o.totalFee then 0 else o.totalFee - adjust,
       refundAmt := o.refundAmt + (if refund > 0 then refund else 0))
  }

  function HandleDisputeTx(db: Db, d: nat, decision: Decision, adjust: int, refund: int): Option<Db> {
    if d >= |db.disputes| || db.disputes[d].status !in {Open, Reviewing} then None
    else
      var oid := db.disputes[d].order;
      var paid :=
        if decision in {Resolve, Partial} && oid < |db.orders| && db.orders[oid].user < |db.users| then
          var o := db.orders[oid];
          Post(db, oid, Adjusted(o, adjust, refund), if refund > 0 then refund else 0,
               if refund > 0 then [DepositRecord(oid, o.user, Refund, refund)] else [])
        else db;
      Some(paid.(disputes := db.disputes[d := db.disputes[d].(
                               status := if decision == Reject then Rejected else Resolved,
                               adjustFee := adjust, refundAmt := refund)]))
  }

  // ---------- compensation (internal/api/router.go, internal/handlers/report_service.go) ----------

  function RefundAll(oid: nat, snap: Order): seq<DepositRecord> {
    if Held(snap) > 0 then [ReleaseRec(oid, snap, Held(snap))] else []
  }

  /** HandleAbnormalCompensation: checks and values come from the row read without a lock; listed columns are written.
      */
  function OperatorTx(db: Db, oid: nat, snap: Order, action: CompAction, now: int): Option<Db> {
    if oid >= |db.orders| || snap.status != Abnormal || snap.comp == CompDone || snap.user >= |db.users|
       || snap.user != db.orders[oid].user then None
    else
      var cur := db.orders[oid].(action := action);
      match action
      case RefundDeposit =>
        var held := Held(snap) > 0;
        Some(Post(db, oid, cur.(status := Compensated, billing := snap.billing, comp := CompDone,
                                deposit := if held then Settled else snap.deposit,
                                refundAmt := if held then Held(snap) else snap.refundAmt),
                  Held(snap), RefundAll(oid, snap)))
      case RecreateOrder =>
        Some(Post(db, oid, cur.(status := Renting, billing := true, comp := CompDone, startTime := Some(now),
                                deposit := snap.deposit, refundAmt := snap.refundAmt), 0, []))
      case ManualReview =>
        Some(Post(db, oid, cur.(status := snap.status, billing := snap.billing, comp := CompReview,
                                deposit := snap.deposit, refundAmt := snap.refundAmt), 0, []))
      case _ => None
  }

  /** Whether a recreation's check of the battery passes: the battery the caller passed on, else the order's own. */
  predicate BatteryAllows(db: Db, passed: Option<nat>, own: nat) {
    if passed.Some?
    then passed.value < |db.batteries| && db.batteries[passed.value].status in {InUse, BatteryLost, Damaged}
    else own < |db.batteries| && db.batteries[own].status == InUse
  }

  /** decideCompensationActionWithReason: the row is read once more under the `comp:` lock, outside the transaction. The
      listed columns are written from that copy, whose status is not checked. */
  function DecideFrom(db: Db, oid: nat, snap: Order, suggested: CompAction, battery: Option<nat>,
      now: int): Option<Db> {
    if oid >= |db.orders| || snap.comp == CompDone || snap.user >= |db.users|
       || snap.user != db.orders[oid].user then None
    else
      var cur := db.orders[oid].(billing := snap.billing, deposit := snap.deposit, refundAmt := snap.refundAmt);
      match suggested
      case RecreateOrder =>
        Some(Post(db, oid,
                  if BatteryAllows(db, battery, snap.battery)
                  then cur.(status := Renting, billing := true, startTime := Some(now), action := RecreateOrder,
                      comp := CompDone)
                  else cur.(status := snap.status, action := ManualReview, comp := CompOpen), 0, []))
      case RefundDeposit =>
        var held := Held(snap) > 0;
        Some(Post(db, oid, cur.(status := Compensated, action := RefundDeposit, comp := CompDone,
                                deposit := if held then Settled else snap.deposit,
                                refundAmt := if held then Held(snap) else snap.refundAmt),
                  Held(snap), RefundAll(oid, snap)))
      case _ =>
        Some(Post(db, oid, cur.(status := snap.status, action := ManualReview, comp := CompReview), 0, []))
  }

  /** A decision that nothing interrupts. */
  function DecideTx(db: Db, oid: nat, suggested: CompAction, battery: Option<nat>, now: int): Option<Db> {
    if oid >= |db.orders| then None else DecideFrom(db, oid, db.orders[oid], suggested, battery, now)
  }

  // ---------- payments (internal/handlers/op_service.go) ----------

  datatype Callback = Callback(pay: nat, txn: string, amount: int, success: bool)

  function KeyOf(cb: Callback): CallbackKey { CallbackKey(cb.pay, cb.txn, cb.amount) }

  function Counted(p: Payment): Payment { p.(callbacks := p.callbacks + 1) }

  function CreditOrder(orders: seq<Order>, p: Payment): seq<Order> {
    if p.order.Some? && p.order.value < |orders|
    then orders[p.order.value := orders[p.order.value].(paidFee := orders[p.order.value].paidFee + p.amount)]
    else orders
  }

  /** HandleCallback for a callback whose lock is obtained and whose statements succeed. */
  function CallbackTx(db: Db, cb: Callback): Db {
    if KeyOf(cb) in db.callbackKeys then db
    else
      var keyed := db.(callbackKeys := db.callbackKeys + {KeyOf(cb)});
      if cb.pay >= |db.payments| then keyed
      else
        var p := Counted(db.payments[cb.pay]);
        if p.status == PaySuccess || p.status == PayRefunded then
          keyed.(payments := db.payments[cb.pay := p])
        else if (cb.amount > 0 && p.amount != cb.amount) || !cb.success then
          keyed.(payments := db.payments[cb.pay := p.(status := PayFailed)])
        else if p.user >= |db.users| then keyed
        else
          var user := db.users[p.user];
          keyed.(payments := db.payments[cb.pay := p.(status := PaySuccess)],
                 users := db.users[p.user := user.(balance := user.balance + p.amount)],
                 orders := CreditOrder(db.orders, p))
  }
}
