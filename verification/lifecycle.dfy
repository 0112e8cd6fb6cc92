/** The life of an order and of its deposit, over every serial run. */
module Lifecycle {
  import opened Models
  import opened Transactions
  import opened Handlers
  import opened Scanning
  import opened Bookkeeping
  import opened Conservation

  /** What an order's status says about its deposit. */
  predicate OrderOk(o: Order) {
    && o.status !in {Pending, Returning, Cancelled}
    && (o.status in {Renting, Abnormal} ==> o.deposit == if o.depositAmt > 0 then Frozen else Unfrozen)
    && (o.status in {Completed, Lost, Compensated} ==> Held(o) == 0)
    && (o.deposit == Unfrozen ==> o.depositAmt == 0)
    && (o.deposit == Frozen ==> o.depositAmt > 0)
    && (o.status == Abnormal ==> o.reason != NoReason && o.comp != CompDone)
  }

  /** References resolve and nobody's balance is negative. */
  ghost predicate Base(db: Db) {
    Linked(db) && forall u | 0 <= u < |db.users| :: db.users[u].balance >= 0
  }

  ghost predicate Healthy(db: Db) {
    Base(db) && forall i | 0 <= i < |db.orders| :: OrderOk(db.orders[i])
  }

  function Rank(d: DepositStatus): nat {
    match d case Unfrozen => 0 case Frozen => 1 case Settled => 2
  }

  predicate SameIdentity(o: Order, o': Order) {
    o'.user == o.user && o'.battery == o.battery && o'.rule == o.rule && o'.depositAmt == o.depositAmt
  }

  predicate Advances(o: Order, o': Order) {
    && Rank(o.deposit) <= Rank(o'.deposit)
    && (o.deposit == Unfrozen ==> o'.deposit == Unfrozen || (o'.deposit == Settled && o.depositAmt == 0))
  }

  predicate Pinned(o: Order, o': Order) {
    o.status == Disputed ==> o'.status == Disputed && o'.deposit == o.deposit
  }

  /** Identity stays and the deposit never goes back; a healthy order stays healthy, its deposit only advances, and if
      disputed it stays put unless just lost. */
  predicate Lives(o: Order, o': Order, lost: bool) {
    && SameIdentity(o, o') && Rank(o.deposit) <= Rank(o'.deposit)
    && (OrderOk(o) ==> OrderOk(o') && Advances(o, o') && (lost || Pinned(o, o')))
  }

  ghost predicate Step(db: Db, db': Db, lost: Option<nat>) {
    && Base(db')
    && |db'.orders| >= |db.orders|
    && |db'.users| == |db.users| && |db'.batteries| == |db.batteries| && db'.rules == db.rules
    && (forall i: nat | i < |db.orders| :: Lives(db.orders[i], db'.orders[i], lost == Some(i)))
    && (forall i: nat | |db.orders| <= i < |db'.orders| :: OrderOk(db'.orders[i]))
  }

  lemma StepHealthy(db: Db, db': Db, lost: Option<nat>)
    requires Healthy(db) && Step(db, db', lost)
    ensures Healthy(db')
  {
    forall i: nat | i < |db'.orders| ensures OrderOk(db'.orders[i]) {
      if i < |db.orders| { assert Lives(db.orders[i], db'.orders[i], lost == Some(i)); }
    }
  }

  lemma StepChain(db: Db, db1: Db, db2: Db)
    requires Step(db, db1, None) && Step(db1, db2, None)
    ensures Step(db, db2, None)
  {
    forall i: nat | i < |db2.orders|
      ensures i < |db.orders| ==> Lives(db.orders[i], db2.orders[i], false)
      ensures i >= |db.orders| ==> OrderOk(db2.orders[i])
    {
      if i < |db1.orders| { assert Lives(db1.orders[i], db2.orders[i], false); }
      if i < |db.orders| { assert Lives(db.orders[i], db1.orders[i], false); }
    }
  }

  /** References, identities and non-negative balances survive. */
  ghost predicate RefsKept(db: Db, db': Db) {
    && Base(db')
    && |db'.users| == |db.users| && |db'.orders| >= |db.orders|
    && forall i | 0 <= i < |db.orders| :: SameIdentity(db.orders[i], db'.orders[i])
  }

  /** The shape of a transaction that rewrites one order and appends records for it. */
  ghost predicate RewritesOne(db: Db, db': Db, oid: nat, recs: seq<DepositRecord>) {
    && oid < |db.orders| == |db'.orders|
    && db'.orders == db.orders[oid := db'.orders[oid]]
    && SameIdentity(db.orders[oid], db'.orders[oid])
    && |db'.users| == |db.users| && |db'.batteries| == |db.batteries| && db'.rules == db.rules
    && (forall u | 0 <= u < |db.users| :: db'.users[u].balance >= db.users[u].balance)
    && db'.records == db.records + recs && (forall i | 0 <= i < |recs| :: recs[i].order == oid)
    && db'.payments == db.payments
    && |db'.disputes| == |db.disputes|
    && (forall i | 0 <= i < |db.disputes| :: db'.disputes[i].order == db.disputes[i].order)
    && (forall i :: i in db'.returned ==> i in db.returned || i == oid)
  }

  lemma RewriteKeepsRefs(db: Db, db': Db, oid: nat, recs: seq<DepositRecord>)
    requires Base(db) && RewritesOne(db, db', oid, recs)
    ensures RefsKept(db, db')
  {
    forall i | 0 <= i < |db'.orders| ensures OrderLinked(db', db'.orders[i]) {
      assert OrderLinked(db, db.orders[i]);
    }
  }

  lemma OneOrder(db: Db, db': Db, oid: nat, recs: seq<DepositRecord>, lost: Option<nat>)
    requires Base(db) && RewritesOne(db, db', oid, recs)
    requires Lives(db.orders[oid], db'.orders[oid], lost == Some(oid))
    ensures Step(db, db', lost)
  {
    RewriteKeepsRefs(db, db', oid, recs);
  }

  // ---------- one transaction each ----------

  lemma DetectSteps(db: Db, cab: nat, slotNo: nat, b: nat, soc: int, tempOk: bool, now: int)
    requires Base(db)
    ensures Step(db, OrKeep(DetectReturn(db, cab, slotNo, b, soc, tempOk, now), db), None)
  {
    var r := DetectReturn(db, cab, slotNo, b, soc, tempOk, now);
    var found := LatestRental(db.orders, b);
    if r.Some? && db.orders[found.value].status != Returning {
      var oid := found.value;
      OneOrder(db, r.value, oid, Settlement(oid, db.orders[oid], r.value.orders[oid].totalFee), None);
    }
  }

  lemma ManualSteps(db: Db, oid: nat, cab: nat, slotNo: nat, now: int)
    requires Base(db)
    ensures Step(db, OrKeep(ManualReturn(db, oid, cab, slotNo, now), db), None)
  {
    var r := ManualReturn(db, oid, cab, slotNo, now);
    if r.Some? {
      OneOrder(db, r.value, oid, Settlement(oid, db.orders[oid], r.value.orders[oid].totalFee), None);
    }
  }

  lemma LostSteps(db: Db, oid: nat, fee: int, now: int)
    requires Base(db) && oid < |db.orders|
    ensures Step(db, OrKeep(LostTx(db, oid, db.orders[oid], fee, now), db), Some(oid))
  {
    var r := LostTx(db, oid, db.orders[oid], fee, now);
    if r.Some? {
      OneOrder(db, r.value, oid, LostSettlement(oid, db.orders[oid], r.value.orders[oid].totalFee), Some(oid));
    }
  }

  lemma DamageSteps(db: Db, oid: nat, fee: int)
    requires Base(db) && oid < |db.orders|
    ensures Step(db, OrKeep(DamageTx(db, oid, db.orders[oid], fee), db), None)
  {
    var r := DamageTx(db, oid, db.orders[oid], fee);
    if r.Some? {
      assert r.value.records == db.records + [];
      OneOrder(db, r.value, oid, [], None);
    }
  }

  lemma CreateDisputeSteps(db: Db, u: nat, oid: nat)
    requires Base(db)
    ensures Step(db, OrKeep(CreateDisputeTx(db, u, oid), db), None)
  {
    var r := CreateDisputeTx(db, u, oid);
    if r.Some? {
      var without := r.value.(disputes := db.disputes);
      assert without.records == db.records + [];
      OneOrder(db, without, oid, [], None);
    }
  }

  lemma HandleDisputeSteps(db: Db, d: nat, decision: Decision, adjust: int, refund: int)
    requires Base(db)
    ensures Step(db, OrKeep(HandleDisputeTx(db, d, decision, adjust, refund), db), None)
  {
    var r := HandleDisputeTx(db, d, decision, adjust, refund);
    if r.Some? {
      var oid := db.disputes[d].order;
      var o := db.orders[oid];
      if decision in {Resolve, Partial} && o.user < |db.users| {
        OneOrder(db, r.value, oid, if refund > 0 then [DepositRecord(oid, o.user, Refund, refund)] else [], None);
      } else {
        assert r.value.records == db.records + [];
        assert r.value.orders == db.orders[oid := o];
        OneOrder(db, r.value, oid, [], None);
      }
    }
  }

  lemma OperatorSteps(db: Db, oid: nat, action: CompAction, now: int)
    requires Base(db) && oid < |db.orders|
    ensures Step(db, OrKeep(OperatorTx(db, oid, db.orders[oid], action, now), db), None)
  {
    var r := OperatorTx(db, oid, db.orders[oid], action, now);
    if r.Some? {
      OneOrder(db, r.value, oid, if action == RefundDeposit then RefundAll(oid, db.orders[oid]) else [], None);
    }
  }

  lemma DecideSteps(db: Db, oid: nat, suggested: CompAction, battery: Option<nat>, now: int)
    requires Base(db) && oid < |db.orders| && db.orders[oid].status == Abnormal
    ensures Step(db, OrKeep(DecideTx(db, oid, suggested, battery, now), db), None)
  {
    var r := DecideTx(db, oid, suggested, battery, now);
    if r.Some? {
      OneOrder(db, r.value, oid, if suggested == RefundDeposit then RefundAll(oid, db.orders[oid]) else [], None);
    }
  }

  lemma ToAbnormalSteps(db: Db, oid: nat, reason: Reason)
    requires Base(db) && oid < |db.orders| && db.orders[oid].status in {Pending, Renting} && reason != NoReason
    ensures Step(db, db.(orders := db.orders[oid := ToAbnormal(db.orders[oid], reason)]), None)
  {
    var db' := db.(orders := db.orders[oid := ToAbnormal(db.orders[oid], reason)]);
    assert db'.records == db.records + [];
    OneOrder(db, db', oid, [], None);
  }

  lemma CallbackSteps(db: Db, cb: Callback)
    requires Base(db)
    ensures Step(db, CallbackTx(db, cb), None)
  {
    var db' := CallbackTx(db, cb);
    forall i | 0 <= i < |db.orders|
      ensures OrderLinked(db', db'.orders[i]) && Lives(db.orders[i], db'.orders[i], false)
    {
      assert OrderLinked(db, db.orders[i]);
    }
  }

  lemma OpenOrderSteps(db: Db, snap: User, o: Order)
    requires Base(db) && OrderLinked(db, o) && OrderOk(o)
    requires o.depositAmt <= snap.balance || o.depositAmt == 0
    ensures Step(db, OpenOrder(db, snap, o), None)
  {
    var db' := OpenOrder(db, snap, o);
    forall i | 0 <= i < |db'.orders| ensures OrderLinked(db', db'.orders[i]) {
      if i < |db.orders| { assert OrderLinked(db, db.orders[i]) && db'.orders[i] == db.orders[i]; }
    }
  }

  /** Steps that leave the orders, users and references alone. */
  lemma SideSteps(db: Db, db': Db)
    requires Base(db)
    requires db'.users == db.users && db'.orders == db.orders && db'.rules == db.rules && db'.records == db.records
    requires db'.returned == db.returned && db'.disputes == db.disputes && |db'.batteries| == |db.batteries|
    requires forall i | 0 <= i < |db'.payments| :: db'.payments[i].user < |db.users|
    ensures Step(db, db', None)
  {
    forall i | 0 <= i < |db.orders| ensures OrderLinked(db', db'.orders[i]) {
      assert OrderLinked(db, db.orders[i]);
    }
  }

  lemma CreateAbnormalSteps(db: Db, u: nat, cab: nat, slotNo: Option<nat>, reason: Reason, now: int)
    requires Base(db) && reason != NoReason
    ensures Step(db, OrKeep(CreateAbnormal(db, u, cab, slotNo, reason, now), db), None)
  {
    var r := CreateAbnormal(db, u, cab, slotNo, reason, now);
    if r.Some? {
      var o := r.value.orders[|db.orders|];
      OpenOrderSteps(db, db.users[u], o);
    }
  }

  lemma RentSteps(db: Db, u: nat, snap: User, k: nat, now: int)
    requires Base(db)
    ensures Step(db, OrKeep(RentTx(db, u, snap, k, now), db), None)
  {
    var r := RentTx(db, u, snap, k, now);
    if r.Some? {
      var o := r.value.orders[|db.orders|];
      OpenOrderSteps(db, snap, o);
      var booked := OpenOrder(db, snap, o);
      SideSteps(booked, r.value);
      StepChain(db, booked, r.value);
    }
  }

  lemma ScanSteps(db: Db, u: nat, cab: nat, slotNo: Option<nat>, now: int)
    requires Base(db)
    ensures Step(db, Scan(db, u, cab, slotNo, now).db, None)
  {
    var marked, no, reason, k := ScanCases(db, u, cab, slotNo, now);
    SideSteps(db, marked);
    CreateAbnormalSteps(marked, u, cab, no, reason, now);
    if u < |db.users| { RentSteps(marked, u, marked.users[u], k, now); }
    StepChain(db, marked, Scan(db, u, cab, slotNo, now).db);
  }

  // ---------- the loops ----------

  lemma DecideOneSteps(db: Db, oid: nat, limit: int, now: int)
    requires Base(db) && oid < |db.orders| && db.orders[oid].status == Abnormal
    ensures Step(db, OrKeep(DecideOne(db, oid, limit, now), db), None)
  {
    var b := Some(db.orders[oid].battery);
    DecideSteps(db, oid, ManualReview, None, now);
    DecideSteps(db, oid, ManualReview, b, now);
    DecideSteps(db, oid, RecreateOrder, b, now);
    DecideSteps(db, oid, RefundDeposit, b, now);
  }

  lemma {:induction false} UnlockLoopSteps(db: Db, cab: nat, k: nat, n: nat, now: int)
    requires Base(db)
    ensures Step(db, UnlockLoop(db, cab, k, n, now), None)
    decreases n
  {
    SideSteps(db, db);
    if n > 0 {
      var next := db;
      if n <= |db.orders| && AwaitsUnlock(db.orders[n - 1], cab, k) {
        next := OrKeep(DecideOne(db, n - 1, 48 * 3600, now), db);
        DecideOneSteps(db, n - 1, 48 * 3600, now);
      }
      UnlockLoopSteps(next, cab, k, n - 1, now);
      StepChain(db, next, UnlockLoop(next, cab, k, n - 1, now));
    }
  }

  lemma {:induction false} RecoveryLoopSteps(db: Db, cab: nat, n: nat, now: int)
    requires Base(db)
    ensures Step(db, RecoveryLoop(db, cab, n, now), None)
    decreases n
  {
    SideSteps(db, db);
    if n > 0 {
      var next := db;
      if n <= |db.orders| && AwaitsRecovery(db.orders[n - 1], cab) {
        next := OrKeep(DecideOne(db, n - 1, 24 * 3600, now), db);
        DecideOneSteps(db, n - 1, 24 * 3600, now);
      }
      RecoveryLoopSteps(next, cab, n - 1, now);
      StepChain(db, next, RecoveryLoop(next, cab, n - 1, now));
    }
  }

  lemma {:induction false} FailLoopSteps(db: Db, cab: nat, k: nat, n: nat, now: int)
    requires Base(db)
    ensures Step(db, FailLoop(db, cab, k, n, now), None)
    decreases n
  {
    SideSteps(db, db);
    if n > 0 {
      var next := db;
      if n <= |db.orders| && FailsUnlock(db.orders[n - 1], cab, k, now) {
        next := db.(orders := db.orders[n - 1 := ToAbnormal(db.orders[n - 1], LockStuck)]);
        ToAbnormalSteps(db, n - 1, LockStuck);
      }
      FailLoopSteps(next, cab, k, n - 1, now);
      StepChain(db, next, FailLoop(next, cab, k, n - 1, now));
    }
  }

  lemma RecoverCabinetSteps(db: Db, cab: nat, now: int)
    requires Base(db)
    ensures Step(db, RecoverCabinet(db, cab, now), None)
  {
    var online := SetCabinet(db, cab, Cabinet(Online, Some(now)));
    SideSteps(db, db);
    SideSteps(db, online);
    RecoveryLoopSteps(online, cab, |db.orders|, now);
    StepChain(db, online, RecoveryLoop(online, cab, |db.orders|, now));
  }

  lemma HeartbeatSteps(db: Db, cab: nat, accepted: bool, online: bool, now: int)
    requires Base(db)
    ensures Step(db, Heartbeat(db, cab, accepted, online, now), None)
  {
    var stored := if accepted then SetCabinet(db, cab, Cabinet(Online, Some(now))) else db;
    SideSteps(db, db);
    SideSteps(db, stored);
    RecoverCabinetSteps(stored, cab, now);
    StepChain(db, stored, RecoverCabinet(stored, cab, now));
  }

  lemma UnlockReportSteps(db: Db, cab: nat, slotNo: nat, ok: bool, now: int)
    requires Base(db)
    ensures Step(db, UnlockReport(db, cab, slotNo, ok, now), None)
  {
    SideSteps(db, db);
    var k := FindSlot(db.slots, cab, slotNo);
    if k.Some? {
      var emptied := ConfirmUnlock(db, k.value);
      SideSteps(db, emptied);
      UnlockLoopSteps(emptied, cab, k.value, |db.orders|, now);
      StepChain(db, emptied, UnlockLoop(emptied, cab, k.value, |db.orders|, now));
      FailLoopSteps(db, cab, k.value, |db.orders|, now);
    }
  }

  // ---------- every action, every run ----------

  function LostBy(a: Action): Option<nat> { if a.DoLost? then Some(a.oid) else None }

  lemma StepAnyway(db: Db, db': Db, lost: Option<nat>)
    requires Step(db, db', None)
    ensures Step(db, db', lost)
  {
  }

  lemma ApplySteps(db: Db, a: Action)
    requires Base(db)
    ensures Step(db, Apply(db, a), LostBy(a))
  {
    hide Step, DetectReturn, ManualReturn, LostTx, DamageTx, CreateDisputeTx, HandleDisputeTx, OperatorTx,
        CallbackTx, Scan;
    SideSteps(db, db);
    match a
    case DoRecharge(u, amount) => SideSteps(db, Apply(db, a));
    case DoCallback(cb) => CallbackSteps(db, cb);
    case DoScan(u, cab, no, now) => ScanSteps(db, u, cab, no, now);
    case DoUnlockFailure(u, oid, reason) =>
      if UnlockFailure(db, u, oid, reason).Some? {
        ToAbnormalSteps(db, oid, FailureReason(reason));
      }
    case DoDetect(cab, no, b, soc, tempOk, now) => DetectSteps(db, cab, no, b, soc, tempOk, now);
    case DoManual(oid, cab, no, now) => ManualSteps(db, oid, cab, no, now);
    case DoLost(oid, fee, now) =>
      if oid < |db.orders| { LostSteps(db, oid, fee, now); } else { StepAnyway(db, db, Some(oid)); }
    case DoDamage(oid, fee) => if oid < |db.orders| { DamageSteps(db, oid, fee); }
    case DoCreateDispute(u, oid) => CreateDisputeSteps(db, u, oid);
    case DoHandleDispute(d, decision, adjust, refund) => HandleDisputeSteps(db, d, decision, adjust, refund);
    case DoOperator(oid, action, now) => if oid < |db.orders| { OperatorSteps(db, oid, action, now); }
    case _ => DeviceSteps(db, a);
  }

  lemma DeviceSteps(db: Db, a: Action)
    requires Base(db)
    requires a.DoUnlockReport? || a.DoHeartbeat? || a.DoReplayed? || a.DoSlotEntry? || a.DoAssign?
    ensures Step(db, Apply(db, a), None)
  {
    hide Step, UnlockReport, Heartbeat, RecoverCabinet;
    match a
    case DoUnlockReport(cab, no, ok, now) => UnlockReportSteps(db, cab, no, ok, now);
    case DoHeartbeat(cab, accepted, online, now) => HeartbeatSteps(db, cab, accepted, online, now);
    case DoReplayed(cab, now) => RecoverCabinetSteps(db, cab, now);
    case _ => SideSteps(db, Apply(db, a));
  }

  /** A database as first deployed: accounts, hardware and rules, no business yet. */
  predicate Fresh(db: Db) {
    && db.orders == [] && db.records == [] && db.payments == [] && db.disputes == [] && db.returned == map[]
    && forall u | 0 <= u < |db.users| :: db.users[u].balance == 0
  }

  lemma {:induction false} RunHealthy(db: Db, run: seq<Action>)
    requires Healthy(db)
    ensures Healthy(Run(db, run)) && Books(db, Run(db, run))
  {
    if run == [] {
      BooksRefl(db);
    } else {
      var before, a := Run(db, run[..|run| - 1]), run[|run| - 1];
      RunHealthy(db, run[..|run| - 1]);
      ApplySteps(before, a);
      StepHealthy(before, Apply(before, a), LostBy(a));
      ApplyBooks(before, a);
      BooksChain(db, before, Apply(before, a));
    }
  }

  lemma {:induction false} FreshBalances(users: seq<User>, who: set<nat>)
    requires forall u | 0 <= u < |users| :: users[u].balance == 0
    ensures Balances(users, who) == 0
  {
    if users != [] {
      FreshBalances(users[..|users| - 1], who);
    }
  }

  /** Conservation, for every run from deployment, every group of users, and every single order. */
  lemma EveryRunConserves(db: Db, run: seq<Action>)
    requires Fresh(db)
    ensures var end := Run(db, run);
            && Healthy(end)
            && (forall who: set<nat> :: Ledger(end, who) == 0)
            && (forall v: nat | v < |end.users| :: end.users[v].balance == Credits(end, v) - Freezes(end, v) >= 0)
            && (forall oid: nat | oid < |end.orders| :: Deposit(end, oid) == 0 == Pledge(end, oid))
  {
    RunHealthy(db, run);
    var end := Run(db, run);
    forall who: set<nat> ensures Ledger(end, who) == 0 {
      FreshBalances(db.users, who);
    }
    forall v: nat | v < |end.users| ensures end.users[v].balance == Credits(end, v) - Freezes(end, v) >= 0 {
      assert Cash(end, v) == Cash(db, v) == 0;
    }
  }

  /** Once disputed with its deposit held, an order stays so until somebody marks it lost. */
  lemma {:induction false} DisputedStaysFrozen(db: Db, run: seq<Action>, oid: nat)
    requires Healthy(db) && oid < |db.orders| && db.orders[oid].status == Disputed && Held(db.orders[oid]) > 0
    requires forall i | 0 <= i < |run| :: LostBy(run[i]) != Some(oid)
    ensures var end := Run(db, run);
            && Healthy(end) && oid < |end.orders| && end.orders[oid].status == Disputed
            && Held(end.orders[oid]) == Held(db.orders[oid])
  {
    if run != [] {
      var before, a := Run(db, run[..|run| - 1]), run[|run| - 1];
      DisputedStaysFrozen(db, run[..|run| - 1], oid);
      ApplySteps(before, a);
      StepHealthy(before, Apply(before, a), LostBy(a));
      assert Lives(before.orders[oid], Apply(before, a).orders[oid], false);
    }
  }

  /** Through any further run a deposit only moves on: unfrozen, frozen, settled. */
  lemma {:induction false} DepositsOnlyAdvance(db: Db, run: seq<Action>, oid: nat)
    requires Healthy(db) && oid < |db.orders|
    ensures var end := Run(db, run);
            && oid < |end.orders| && OrderOk(end.orders[oid])
            && SameIdentity(db.orders[oid], end.orders[oid]) && Advances(db.orders[oid], end.orders[oid])
  {
    RunHealthy(db, run);
    if run != [] {
      var before, a := Run(db, run[..|run| - 1]), run[|run| - 1];
      DepositsOnlyAdvance(db, run[..|run| - 1], oid);
      RunHealthy(db, run[..|run| - 1]);
      ApplySteps(before, a);
      assert Lives(before.orders[oid], Apply(before, a).orders[oid], LostBy(a) == Some(oid));
    }
  }
}
