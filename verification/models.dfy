/** Rows and tables (internal/models/models.go). A table is a sequence indexed by row id: ids only grow and no
    handler deletes a row. The unique index on ReturnRecord.OrderID makes that table a map keyed by order. */
module Models {
  import opened Fees

  datatype Option<+T> = None | Some(value: T)

  datatype OrderStatus =
    Pending | Renting | Returning | Completed | Lost | Disputed | Cancelled | Abnormal | Compensated
  datatype BatteryStatus = InCabinet | InUse | Charging | BatteryLost | Damaged | Repair
  datatype SlotStatus = Empty | Occupied | Reserved | Fault | Unlocking | SlotReturning
  datatype CabinetStatus = Online | Offline | CabinetFault | Maintenance
  datatype DepositStatus = Unfrozen | Frozen | Settled
  datatype CompStatus = CompOpen | CompDone | CompReview
  datatype CompAction = CompNone | RefundDeposit | RecreateOrder | ManualReview | OtherAction
  datatype Reason = NoReason | DoorNotOpen | BatteryMissing | LockStuck | CabinetOffline
  datatype DepositAction = Freeze | Release | Deduct | Refund
  datatype PayStatus = PayPending | PaySuccess | PayFailed | PayRefunded
  datatype DisputeStatus = Open | Reviewing | Resolved | Rejected
  datatype Category = Normal | SuspectSwapped | RepairInbound | Unclaimed

  datatype User = User(balance: int, depositFree: bool, active: bool)
  datatype Cabinet = Cabinet(status: CabinetStatus, lastOnline: Option<int>)
  datatype Slot = Slot(cabinet: nat, slotNo: nat, battery: Option<nat>, status: SlotStatus, lock: int)
  datatype Battery = Battery(status: BatteryStatus, slot: Option<nat>, soc: int)
  datatype Order = Order(
    user: nat, battery: nat, fromCabinet: nat, fromSlot: nat, toCabinet: Option<nat>, toSlot: Option<nat>,
    status: OrderStatus, rule: nat, depositAmt: nat, deposit: DepositStatus,
    totalFee: nat, paidFee: nat, exceptionFee: nat, refundAmt: nat,
    createdAt: int, startTime: Option<int>, durationSec: int, crossCabinet: bool, billing: bool,
    reason: Reason, action: CompAction, comp: CompStatus)
  datatype DepositRecord = DepositRecord(order: nat, user: nat, action: DepositAction, amount: nat)
  datatype ReturnRecord = ReturnRecord(slot: nat, battery: nat, fee: Fee, crossCabinet: bool)
  datatype Payment = Payment(user: nat, order: Option<nat>, amount: nat, status: PayStatus, callbacks: nat)
  datatype Dispute = Dispute(order: nat, user: nat, status: DisputeStatus, adjustFee: int, refundAmt: int)
  datatype CallbackKey = CallbackKey(pay: nat, txn: string, amount: int)

  datatype Db = Db(
    users: seq<User>, cabinets: seq<Cabinet>, slots: seq<Slot>, batteries: seq<Battery>, rules: seq<Rule>,
    orders: seq<Order>, records: seq<DepositRecord>, returned: map<nat, ReturnRecord>,
    payments: seq<Payment>, disputes: seq<Dispute>, callbackKeys: set<CallbackKey>, depositAmt: nat)

  /** What the foreign keys (internal/database/database.go) keep true of the tables. */
  ghost predicate Linked(db: Db) {
    && (forall i | 0 <= i < |db.orders| :: OrderLinked(db, db.orders[i]))
    && (forall i | 0 <= i < |db.payments| :: db.payments[i].user < |db.users|)
    && (forall i | 0 <= i < |db.records| :: db.records[i].order < |db.orders|)
    && (forall i | 0 <= i < |db.disputes| :: db.disputes[i].order < |db.orders|)
    && (forall i :: i in db.returned ==> i < |db.orders|)
  }

  ghost predicate OrderLinked(db: Db, o: Order) {
    o.user < |db.users| && o.battery < |db.batteries| && o.rule < |db.rules|
  }

  /** The row a query with ORDER BY id ASC LIMIT 1 returns. */
  function First<T>(xs: seq<T>, p: T -> bool): (r: Option<nat>)
    ensures r.Some? ==> r.value < |xs| && p(xs[r.value]) && forall j | 0 <= j < r.value :: !p(xs[j])
    ensures r.None? ==> forall j | 0 <= j < |xs| :: !p(xs[j])
  {
    if xs == [] then None
    else if p(xs[0]) then Some(0)
    else match First(xs[1..], p)
      case None => None
      case Some(j) => Some(j + 1)
  }

  /** The row a query with ORDER BY id DESC LIMIT 1 returns. */
  function Last<T>(xs: seq<T>, p: T -> bool): (r: Option<nat>)
    ensures r.Some? ==> r.value < |xs| && p(xs[r.value]) && forall j | r.value < j < |xs| :: !p(xs[j])
    ensures r.None? ==> forall j | 0 <= j < |xs| :: !p(xs[j])
  {
    if xs == [] then None
    else if p(xs[|xs| - 1]) then Some(|xs| - 1)
    else Last(xs[..|xs| - 1], p)
  }

  function FindSlot(slots: seq<Slot>, cab: nat, no: nat): Option<nat> {
    First(slots, (s: Slot) => s.cabinet == cab && s.slotNo == no)
  }

  function FirstOccupied(slots: seq<Slot>, cab: nat): Option<nat> {
    First(slots, (s: Slot) => s.cabinet == cab && s.status == Occupied)
  }

  function DefaultRule(rules: seq<Rule>): Option<nat> {
    First(rules, (r: Rule) => r.isDefault && r.active)
  }

  predicate Active(o: Order) {
    o.status in {Pending, Renting, Returning}
  }

  /** The newest order under which a battery is out. */
  function LatestRental(orders: seq<Order>, b: nat): Option<nat> {
    Last(orders, (o: Order) => o.battery == b && o.status in {Renting, Returning})
  }

  predicate HasActive(orders: seq<Order>, u: nat) {
    exists i | 0 <= i < |orders| :: orders[i].user == u && Active(orders[i])
  }

  /** The deposit a reader of this row takes to be frozen. */
  function Held(o: Order): nat {
    if o.deposit == Frozen then o.depositAmt else 0
  }
}
