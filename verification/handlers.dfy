/** The handlers as atomic steps over the tables: which transaction each one runs, on which rows. */
module Handlers {
  import opened Models
  import opened Transactions

  function OrKeep(r: Option<Db>, db: Db): Db { if r.Some? then r.value else db }

  // ---------- ScanAndRent ----------

  datatype Scanned = Scanned(db: Db, ok: bool)

  function CreateAbnormal(db: Db, u: nat, cab: nat, slotNo: Option<nat>, reason: Reason, now: int): Option<Db> {
    var k := AbnormalSlot(db, cab, slotNo);
    if u >= |db.users| || k.None? then None else AbnormalTx(db, u, db.users[u], k.value, reason, now)
  }

  function Fallback(db: Db, u: nat, cab: nat, slotNo: Option<nat>, reason: Reason, now: int): Scanned {
    var r := CreateAbnormal(db, u, cab, slotNo, reason, now);
    Scanned(OrKeep(r, db), r.Some?)
  }

  function SetCabinet(db: Db, cab: nat, c: Cabinet): Db { db.(cabinets := Put(db.cabinets, cab, c)) }
  function SetSlot(db: Db, k: nat, slot: Slot): Db { db.(slots := Put(db.slots, k, slot)) }

  function ScanOnline(db: Db, u: nat, cab: nat, slotNo: Option<nat>, now: int): Scanned {
    var k := if slotNo.Some? then FindSlot(db.slots, cab, slotNo.value) else FirstOccupied(db.slots, cab);
    if u >= |db.users| || !db.users[u].active || k.None? then Scanned(db, false)
    else
      var slot := db.slots[k.value];
      var no := Some(slot.slotNo);
      if slotNo.Some? && slot.status == Fault then Fallback(db, u, cab, no, LockStuck, now)
      else if slot.status != Occupied || slot.battery.None? || slot.battery.value >= |db.batteries| then
        Fallback(db, u, cab, no, BatteryMissing, now)
      else if db.batteries[slot.battery.value].status != InCabinet || db.batteries[slot.battery.value].soc < 20 then
        Fallback(SetSlot(db, k.value, slot.(status := Fault)), u, cab, no, BatteryMissing, now)
      else if slot.lock != 1 then Fallback(db, u, cab, no, LockStuck, now)
      else
        var r := RentTx(db, u, db.users[u], k.value, now);
        Scanned(OrKeep(r, db), r.Some?)
  }

  function Scan(db: Db, u: nat, cab: nat, slotNo: Option<nat>, now: int): Scanned {
    if HasActive(db.orders, u) || cab >= |db.cabinets| then Scanned(db, false)
    else
      var c := db.cabinets[cab];
      if c.status != Online then Fallback(db, u, cab, slotNo, CabinetOffline, now)
      else if c.lastOnline.Some? && now - c.lastOnline.value > 300 then
        var stale := SetCabinet(db, cab, c.(status := Offline));
        var r := CreateAbnormal(stale, u, cab, slotNo, CabinetOffline, now);
        if r.Some? then Scanned(r.value, true) else ScanOnline(stale, u, cab, slotNo, now)
      else ScanOnline(db, u, cab, slotNo, now)
  }

  function FailureReason(reason: Reason): Reason {
    if reason in {BatteryMissing, LockStuck} then reason else DoorNotOpen
  }

  function UnlockFailure(db: Db, u: nat, oid: nat, reason: Reason): Option<Db> {
    if oid >= |db.orders| || db.orders[oid].user != u || db.orders[oid].status !in {Pending, Renting} then None
    else Some(db.(orders := db.orders[oid := ToAbnormal(db.orders[oid], FailureReason(reason))]))
  }

  // ---------- compensation decisions ----------

  /** What the two decision loops look at. */
  predicate TakenOut(db: Db, o: Order)
    requires o.battery < |db.batteries| && o.fromSlot < |db.slots|
  {
    || db.batteries[o.battery].status == InUse
    || db.slots[o.fromSlot].status == Empty
    || db.slots[o.fromSlot].battery != Some(o.battery)
  }

  predicate StillInside(db: Db, o: Order)
    requires o.battery < |db.batteries| && o.fromSlot < |db.slots|
  {
    && db.slots[o.fromSlot].status == Occupied
    && db.batteries[o.battery].status == InCabinet
    && db.slots[o.fromSlot].battery == Some(o.battery)
  }

  /** One pass of the loop bodies of handleCabinetRecovered (limit 24 h) and handleUnlockSuccessForAbnormalOrders
      (48 h). */
  function DecideOne(db: Db, oid: nat, limit: int, now: int): Option<Db>
    requires oid < |db.orders|
  {
    var o := db.orders[oid];
    if o.createdAt + limit < now || o.battery >= |db.batteries| || o.fromSlot >= |db.slots| then
      DecideTx(db, oid, ManualReview, None, now)
    else if TakenOut(db, o) then
      DecideTx(db, oid, if o.createdAt + 3600 < now then ManualReview else RecreateOrder, Some(o.battery), now)
    else if StillInside(db, o) then DecideTx(db, oid, RefundDeposit, Some(o.battery), now)
    else DecideTx(db, oid, ManualReview, Some(o.battery), now)
  }

  predicate AwaitsUnlock(o: Order, cab: nat, k: nat) {
    o.fromCabinet == cab && o.fromSlot == k && o.status == Abnormal && o.comp == CompOpen && o.reason != NoReason
  }

  predicate AwaitsRecovery(o: Order, cab: nat) {
    o.fromCabinet == cab && o.status == Abnormal && o.comp == CompOpen && o.reason == CabinetOffline
  }

  /** handleUnlockSuccessForAbnormalOrders over the orders below n, newest first. */
  function UnlockLoop(db: Db, cab: nat, k: nat, n: nat, now: int): Db
    decreases n
  {
    if n == 0 then db
    else if n <= |db.orders| && AwaitsUnlock(db.orders[n - 1], cab, k) then
      UnlockLoop(OrKeep(DecideOne(db, n - 1, 48 * 3600, now), db), cab, k, n - 1, now)
    else UnlockLoop(db, cab, k, n - 1, now)
  }

  /** handleCabinetRecovered over the orders below n, newest first. */
  function RecoveryLoop(db: Db, cab: nat, n: nat, now: int): Db
    decreases n
  {
    if n == 0 then db
    else if n <= |db.orders| && AwaitsRecovery(db.orders[n - 1], cab) then
      RecoveryLoop(OrKeep(DecideOne(db, n - 1, 24 * 3600, now), db), cab, n - 1, now)
    else RecoveryLoop(db, cab, n - 1, now)
  }

  predicate FailsUnlock(o: Order, cab: nat, k: nat, now: int) {
    && o.fromCabinet == cab && o.fromSlot == k && o.status in {Pending, Renting}
    && !(o.startTime.Some? && now - o.startTime.value < 300)
  }

  /** handleUnlockFailureForPendingOrders over the orders below n, newest first. */
  function FailLoop(db: Db, cab: nat, k: nat, n: nat, now: int): Db
    decreases n
  {
    if n == 0 then db
    else if n <= |db.orders| && FailsUnlock(db.orders[n - 1], cab, k, now) then
      FailLoop(db.(orders := db.orders[n - 1 := ToAbnormal(db.orders[n - 1], LockStuck)]), cab, k, n - 1, now)
    else FailLoop(db, cab, k, n - 1, now)
  }

  function ConfirmUnlock(db: Db, k: nat): Db
    requires k < |db.slots|
  {
    SetSlot(db, k, db.slots[k].(status := Empty, battery := None, lock := 1))
  }

  /** What LockReport does once the report is stored. */
  function UnlockReport(db: Db, cab: nat, slotNo: nat, ok: bool, now: int): Db {
    var k := FindSlot(db.slots, cab, slotNo);
    if k.None? then db
    else if ok then UnlockLoop(ConfirmUnlock(db, k.value), cab, k.value, |db.orders|, now)
    else FailLoop(db, cab, k.value, |db.orders|, now)
  }

  /** Only reports of lock type "unlock" do anything. */
  function LockEffect(db: Db, cab: nat, slotNo: nat, unlock: bool, opening: bool, now: int): Db {
    if unlock then UnlockReport(db, cab, slotNo, opening, now) else db
  }

  /** handleOfflineReplayCabinetRecovery; also the tail of Heartbeat. */
  function RecoverCabinet(db: Db, cab: nat, now: int): Db {
    if cab >= |db.cabinets| || db.cabinets[cab].status != Offline then db
    else RecoveryLoop(SetCabinet(db, cab, Cabinet(Online, Some(now))), cab, |db.orders|, now)
  }

  /** Heartbeat: storing an accepted heartbeat already marks the cabinet online. */
  function Heartbeat(db: Db, cab: nat, accepted: bool, online: bool, now: int): Db {
    if cab >= |db.cabinets| then db
    else
      var stored := if accepted then SetCabinet(db, cab, Cabinet(Online, Some(now))) else db;
      if online then RecoverCabinet(stored, cab, now) else stored
  }

  function Assign(db: Db, b: nat, cab: nat, slotNo: nat): Option<Db> {
    var k := FindSlot(db.slots, cab, slotNo);
    if k.None? || db.slots[k.value].status == Occupied || b >= |db.batteries| then None
    else Some(db.(slots := db.slots[k.value := db.slots[k.value].(status := Occupied, battery := Some(b))],
                  batteries := db.batteries[b := db.batteries[b].(status := InCabinet, slot := Some(k.value))]))
  }

  /** One entry of a SlotReport. `b` is the reported battery: None if blank, an unknown id if not registered. */
  function SlotEntry(db: Db, cab: nat, slotNo: nat, occupied: bool, b: Option<nat>, lock: int, soc: int): Db {
    var found := FindSlot(db.slots, cab, slotNo);
    var seen := if occupied then Occupied else Empty;
    var known := b.Some? && b.value < |db.batteries|;
    if found.None? then
      db.(slots := db.slots + [Slot(cab, slotNo, if known then b else None, seen, lock)])
    else
      var k := found.value;
      var slot := db.slots[k];
      var status := if slot.status in {Unlocking, SlotReturning} then slot.status else seen;
      db.(slots := db.slots[k := slot.(lock := lock, status := status,
                                       battery := if known || b.None? then b else slot.battery)],
          batteries := if known then db.batteries[b.value := db.batteries[b.value].(slot := Some(k), soc := soc)]
                       else db.batteries)
  }

  function Recharge(db: Db, u: nat, amount: nat): Option<Db> {
    if u >= |db.users| then None else Some(db.(payments := db.payments + [Payment(u, None, amount, PayPending, 0)]))
  }

  // ---------- one step of a serial run ----------

  datatype Action =
    | DoRecharge(u: nat, amount: nat)
    | DoCallback(cb: Callback)
    | DoScan(u: nat, cab: nat, no: Option<nat>, now: int)
    | DoUnlockFailure(u: nat, oid: nat, reason: Reason)
    | DoDetect(cab: nat, slotNo: nat, b: nat, soc: int, tempOk: bool, now: int)
    | DoManual(oid: nat, cab: nat, slotNo: nat, now: int)
    | DoLost(oid: nat, fee: int, now: int)
    | DoDamage(oid: nat, fee: int)
    | DoCreateDispute(u: nat, oid: nat)
    | DoHandleDispute(d: nat, decision: Decision, adjust: int, refund: int)
    | DoOperator(oid: nat, action: CompAction, now: int)
    | DoUnlockReport(cab: nat, slotNo: nat, unlocked: bool, now: int)
    | DoHeartbeat(cab: nat, accepted: bool, online: bool, now: int)
    | DoReplayed(cab: nat, now: int)
    | DoSlotEntry(cab: nat, slotNo: nat, occupied: bool, seen: Option<nat>, lock: int, soc: int)
    | DoAssign(b: nat, cab: nat, slotNo: nat)

  function Attempt(db: Db, a: Action): Option<Db> {
    match a
    case DoRecharge(u, amount) => Recharge(db, u, amount)
    case DoCallback(cb) => Some(CallbackTx(db, cb))
    case DoScan(u, cab, no, now) => Some(Scan(db, u, cab, no, now).db)
    case DoUnlockFailure(u, oid, reason) => UnlockFailure(db, u, oid, reason)
    case DoDetect(cab, no, b, soc, tempOk, now) => DetectReturn(db, cab, no, b, soc, tempOk, now)
    case DoManual(oid, cab, no, now) => ManualReturn(db, oid, cab, no, now)
    case DoLost(oid, fee, now) => if oid < |db.orders| then LostTx(db, oid, db.orders[oid], fee, now) else None
    case DoDamage(oid, fee) => if oid < |db.orders| then DamageTx(db, oid, db.orders[oid], fee) else None
    case DoCreateDispute(u, oid) => CreateDisputeTx(db, u, oid)
    case DoHandleDispute(d, decision, adjust, refund) => HandleDisputeTx(db, d, decision, adjust, refund)
    case DoOperator(oid, action, now) => if oid < |db.orders|
        then OperatorTx(db, oid, db.orders[oid], action, now) else None
    case DoUnlockReport(cab, no, ok, now) => Some(UnlockReport(db, cab, no, ok, now))
    case DoHeartbeat(cab, accepted, online, now) => Some(Heartbeat(db, cab, accepted, online, now))
    case DoReplayed(cab, now) => Some(RecoverCabinet(db, cab, now))
    case DoSlotEntry(cab, no, occupied, b, lock, soc) => Some(SlotEntry(db, cab, no, occupied, b, lock, soc))
    case DoAssign(b, cab, no) => Assign(db, b, cab, no)
  }

  function ManualReturn(db: Db, oid: nat, cab: nat, slotNo: nat, now: int): Option<Db> {
    if oid >= |db.orders| || db.orders[oid].battery >= |db.batteries| then None
    else ManualTx(db, oid, db.orders[oid], db.batteries[db.orders[oid].battery], cab, slotNo, now)
  }

  function Apply(db: Db, a: Action): Db { OrKeep(Attempt(db, a), db) }

  function Run(db: Db, run: seq<Action>): Db {
    if run == [] then db else Apply(Run(db, run[..|run| - 1]), run[|run| - 1])
  }
}
