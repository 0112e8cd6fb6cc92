/** Every transaction keeps the books, up to the staleness of the rows it was computed from. */
module Conservation {
  import opened Fees
  import opened Models
  import opened Transactions
  import opened Handlers
  import opened Scanning
  import opened Bookkeeping

  /** What a transaction believed held for an order, less what is held when it commits. */
  function Staleness(db: Db, oid: nat, snap: Order): int
    requires oid < |db.orders|
  {
    Held(snap) - Held(db.orders[oid])
  }

  /** Nothing is off. */
  ghost predicate Still(db: Db, db': Db) {
    Moved(db, db', 0, 0, 0)
  }

  lemma StillFromMoved(db: Db, db': Db, oid: nat, u: nat)
    requires Moved(db, db', oid, u, 0)
    ensures Still(db, db')
  {
  }

  lemma StillChain(db: Db, db1: Db, db2: Db)
    requires Still(db, db1) && Still(db1, db2)
    ensures Still(db, db2)
  {
  }

  predicate SameStake(o: Order, o': Order) {
    Held(o') == Held(o) && o'.user == o.user && o'.depositAmt == o.depositAmt
  }

  lemma StillOrders(db: Db, db': Db)
    requires db'.users == db.users && db'.records == db.records && db'.payments == db.payments
    requires |db'.orders| == |db.orders|
    requires forall i | 0 <= i < |db.orders| :: SameStake(db.orders[i], db'.orders[i])
    ensures Still(db, db')
  {
    forall who: set<nat> ensures Ledger(db', who) == Ledger(db, who) {
      SumSame(db.orders, db'.orders, who);
    }
    forall v: nat ensures Freezes(db', v) == Freezes(db, v) {}
  }

  lemma {:induction false} SumSame(xs: seq<Order>, ys: seq<Order>, who: set<nat>)
    requires |xs| == |ys|
    requires forall i | 0 <= i < |xs| :: SameStake(xs[i], ys[i])
    ensures SumBy(xs, HeldBy(who)) == SumBy(ys, HeldBy(who))
  {
    if xs != [] {
      SumSame(xs[..|xs| - 1], ys[..|ys| - 1], who);
    }
  }

  // ---------- one transaction each ----------

  lemma CloseTxMoves(db: Db, oid: nat, snap: Order, o: Order, fee: Fee, k: nat, slot: Slot, b: nat, bat: Battery)
    requires oid < |db.orders| && o.user == snap.user == db.orders[oid].user && o.deposit == Settled
    requires o.depositAmt == snap.depositAmt == db.orders[oid].depositAmt
    ensures var r := CloseTx(db, oid, snap, o, fee, k, slot, b, bat);
            r.Some? ==> Moved(db, r.value, oid, snap.user, Staleness(db, oid, snap))
  {
    var r := CloseTx(db, oid, snap, o, fee, k, slot, b, bat);
    if r.Some? {
      SettlementTotals(oid, snap, fee.total);
      var posted := Post(db, oid, o, Refundable(snap, fee.total), Settlement(oid, snap, fee.total));
      PostMoves(db, oid, o, Refundable(snap, fee.total), Settlement(oid, snap, fee.total), Staleness(db, oid, snap));
      SameMoneyMoves(db, posted, r.value, oid, snap.user, Staleness(db, oid, snap));
    }
  }

  lemma DetectTxMoves(db: Db, oid: nat, snap: Order, disputed: bool, cab: nat, k: nat, b: nat, soc: int, now: int)
    requires oid < |db.orders| && snap.user == db.orders[oid].user && snap.depositAmt == db.orders[oid].depositAmt
    ensures var r := DetectTx(db, oid, snap, disputed, cab, k, b, soc, now);
            r.Some? ==> Moved(db, r.value, oid, snap.user, Staleness(db, oid, snap))
  {
    if snap.rule < |db.rules| && k < |db.slots| && b < |db.batteries| {
      var duration := if Elapsed(snap, now) < 0 then 0 else Elapsed(snap, now);
      var fee := FeeOf(db.rules[snap.rule], duration);
      var o := Closed(snap, cab, k, fee.total, duration)
               .(exceptionFee := 0, status := if disputed then Disputed else Completed);
      CloseTxMoves(db, oid, snap, o, fee, k, db.slots[k].(lock := 1), b, db.batteries[b].(soc := soc));
    }
  }

  lemma ManualTxMoves(db: Db, oid: nat, snap: Order, bat: Battery, cab: nat, slotNo: nat, now: int)
    requires oid < |db.orders| && snap.user == db.orders[oid].user && snap.depositAmt == db.orders[oid].depositAmt
    ensures var r := ManualTx(db, oid, snap, bat, cab, slotNo, now);
            r.Some? ==> Moved(db, r.value, oid, snap.user, Staleness(db, oid, snap))
  {
    var k := FindSlot(db.slots, cab, slotNo);
    if snap.rule < |db.rules| && k.Some? {
      var fee := FeeOf(db.rules[snap.rule], Elapsed(snap, now));
      var o := Closed(snap, cab, k.value, fee.total, Elapsed(snap, now)).(status := Completed);
      CloseTxMoves(db, oid, snap, o, fee, k.value, db.slots[k.value], snap.battery, bat);
    }
  }

  lemma LostTxMoves(db: Db, oid: nat, snap: Order, feeCustom: int, now: int)
    requires oid < |db.orders| && snap.user == db.orders[oid].user && snap.depositAmt == db.orders[oid].depositAmt
    ensures var r := LostTx(db, oid, snap, feeCustom, now);
            r.Some? ==> Moved(db, r.value, oid, snap.user, Staleness(db, oid, snap))
  {
    var r := LostTx(db, oid, snap, feeCustom, now);
    if r.Some? {
      var o := r.value.orders[oid];
      var total := o.totalFee;
      LostSettlementTotals(oid, snap, total);
      PostMoves(db, oid, o, Refundable(snap, total), LostSettlement(oid, snap, total), Staleness(db, oid, snap));
      var posted := Post(db, oid, o, Refundable(snap, total), LostSettlement(oid, snap, total));
      SameMoneyMoves(db, posted, r.value, oid, snap.user, Staleness(db, oid, snap));
    }
  }

  lemma PlainPostMoves(db: Db, db': Db, oid: nat, o: Order)
    requires oid < |db.orders| && o.user == db.orders[oid].user < |db.users|
    requires o.depositAmt == db.orders[oid].depositAmt
    requires db'.users == db.users && db'.records == db.records && db'.payments == db.payments
    requires db'.orders == db.orders[oid := o]
    ensures Moved(db, db', oid, o.user, Held(o) - Held(db.orders[oid]))
  {
    Unfold([], Deduct);
    Unfold([], Release);
    Unfold([], Refund);
    PostMoves(db, oid, o, 0, [], Held(o) - Held(db.orders[oid]));
    var posted := Post(db, oid, o, 0, []);
    assert posted.users == db.users && posted.records == db.records;
    SameMoneyMoves(db, posted, db', oid, o.user, Held(o) - Held(db.orders[oid]));
  }

  lemma DamageTxMoves(db: Db, oid: nat, snap: Order, feeCustom: int)
    requires oid < |db.orders| && snap.user == db.orders[oid].user < |db.users|
    requires snap.depositAmt == db.orders[oid].depositAmt
    ensures var r := DamageTx(db, oid, snap, feeCustom);
            r.Some? ==> Moved(db, r.value, oid, snap.user, Staleness(db, oid, snap))
  {
    var r := DamageTx(db, oid, snap, feeCustom);
    if r.Some? {
      PlainPostMoves(db, r.value, oid, r.value.orders[oid]);
    }
  }

  lemma OperatorTxMoves(db: Db, oid: nat, snap: Order, action: CompAction, now: int)
    requires oid < |db.orders| && snap.depositAmt == db.orders[oid].depositAmt
    ensures var r := OperatorTx(db, oid, snap, action, now);
            r.Some? ==> Moved(db, r.value, oid, snap.user, Staleness(db, oid, snap))
  {
    var r := OperatorTx(db, oid, snap, action, now);
    if r.Some? {
      var o := r.value.orders[oid];
      var recs := if action == RefundDeposit then RefundAll(oid, snap) else [];
      var credit := if action == RefundDeposit then Held(snap) else 0;
      RefundAllTotals(oid, snap);
      Unfold([], Deduct);
      Unfold([], Release);
      Unfold([], Refund);
      PostMoves(db, oid, o, credit, recs, Staleness(db, oid, snap));
      assert r.value == Post(db, oid, o, credit, recs);
    }
  }

  lemma DecideFromMoves(db: Db, oid: nat, snap: Order, suggested: CompAction, battery: Option<nat>, now: int)
    requires oid < |db.orders| && snap.depositAmt == db.orders[oid].depositAmt
    ensures var r := DecideFrom(db, oid, snap, suggested, battery, now);
            r.Some? ==> Moved(db, r.value, oid, snap.user, Staleness(db, oid, snap))
  {
    var r := DecideFrom(db, oid, snap, suggested, battery, now);
    if r.Some? {
      var o := r.value.orders[oid];
      var recs := if suggested == RefundDeposit then RefundAll(oid, snap) else [];
      var credit := if suggested == RefundDeposit then Held(snap) else 0;
      RefundAllTotals(oid, snap);
      Unfold([], Deduct);
      Unfold([], Release);
      Unfold([], Refund);
      PostMoves(db, oid, o, credit, recs, Staleness(db, oid, snap));
      assert r.value == Post(db, oid, o, credit, recs);
    }
  }

  lemma DecideTxStill(db: Db, oid: nat, suggested: CompAction, battery: Option<nat>, now: int)
    ensures var r := DecideTx(db, oid, suggested, battery, now);
            r.Some? ==> Still(db, r.value)
  {
    if oid < |db.orders| {
      DecideFromMoves(db, oid, db.orders[oid], suggested, battery, now);
    }
  }

  lemma HandleDisputeTxStill(db: Db, d: nat, decision: Decision, adjust: int, refund: int)
    ensures var r := HandleDisputeTx(db, d, decision, adjust, refund);
            r.Some? ==> Still(db, r.value)
  {
    var r := HandleDisputeTx(db, d, decision, adjust, refund);
    if r.Some? {
      var oid := db.disputes[d].order;
      if decision in {Resolve, Partial} && oid < |db.orders| && db.orders[oid].user < |db.users| {
        var o := db.orders[oid];
        var recs := if refund > 0 then [DepositRecord(oid, o.user, Refund, refund)] else [];
        Unfold(recs, Deduct);
        Unfold(recs, Release);
        Unfold(recs, Refund);
        PostMoves(db, oid, Adjusted(o, adjust, refund), if refund > 0 then refund else 0, recs, 0);
        SameMoneyMoves(db, Post(db, oid, Adjusted(o, adjust, refund), if refund > 0 then refund else 0, recs),
                       r.value, oid, o.user, 0);
      } else {
        StillOrders(db, r.value);
      }
    }
  }

  /** A payment changes its status, its user is credited with the amount it newly pays, and orders keep their stakes. */
  lemma PaymentStill(db: Db, db': Db, pay: nat, p': Payment)
    requires pay < |db.payments| && db'.payments == db.payments[pay := p'] && db'.records == db.records
    requires var p := db.payments[pay];
             var paid := PaidBy({p.user})(p') - PaidBy({p.user})(p);
             && p'.user == p.user
             && (if paid == 0 then db'.users == db.users
                 else && p.user < |db.users| == |db'.users|
                      && db'.users == db.users[p.user := db'.users[p.user]]
                      && db'.users[p.user].balance == db.users[p.user].balance + paid)
    requires |db'.orders| == |db.orders| && forall i | 0 <= i < |db.orders| :: SameStake(db.orders[i], db'.orders[i])
    ensures Still(db, db')
  {
    var p := db.payments[pay];
    forall who: set<nat> ensures Ledger(db', who) == Ledger(db, who) {
      SumUpdate(db.payments, pay, p', PaidBy(who));
      SumSame(db.orders, db'.orders, who);
      if db'.users != db.users { BalancesUpdate(db.users, p.user, db'.users[p.user], who); }
    }
    forall v: nat ensures Freezes(db', v) == Freezes(db, v) && (v < |db.users| ==> Cash(db', v) == Cash(db, v)) {
      SumUpdate(db.payments, pay, p', PaidBy({v}));
    }
  }

  lemma CallbackTxStill(db: Db, cb: Callback)
    ensures Still(db, CallbackTx(db, cb))
  {
    var db' := CallbackTx(db, cb);
    if db'.payments == db.payments {
      StillOrders(db, db');
    } else {
      PaymentStill(db, db', cb.pay, db'.payments[cb.pay]);
    }
  }

  lemma RechargeStill(db: Db, u: nat, amount: nat)
    ensures var r := Recharge(db, u, amount); r.Some? ==> Still(db, r.value)
  {
    var r := Recharge(db, u, amount);
    if r.Some? {
      var p := Payment(u, None, amount, PayPending, 0);
      forall who: set<nat> ensures Ledger(r.value, who) == Ledger(db, who) {
        SumAppend(db.payments, [p], PaidBy(who));
        SumOne(p, PaidBy(who));
      }
      forall v: nat ensures Freezes(r.value, v) == Freezes(db, v)
          && (v < |db.users| ==> Cash(r.value, v) == Cash(db, v)) {
        SumAppend(db.payments, [p], PaidBy({v}));
        SumOne(p, PaidBy({v}));
      }
    }
  }

  // ---------- the loops ----------

  lemma {:induction false} UnlockLoopStill(db: Db, cab: nat, k: nat, n: nat, now: int)
    ensures Still(db, UnlockLoop(db, cab, k, n, now))
    decreases n
  {
    if n == 0 {
      StillOrders(db, db);
    } else {
      var next := if n <= |db.orders| && AwaitsUnlock(db.orders[n - 1], cab, k)
                  then OrKeep(DecideOne(db, n - 1, 48 * 3600, now), db) else db;
      DecideOneStill(db, n - 1, 48 * 3600, now);
      StillOrders(db, db);
      UnlockLoopStill(next, cab, k, n - 1, now);
      StillChain(db, next, UnlockLoop(next, cab, k, n - 1, now));
    }
  }

  lemma DecideOneStill(db: Db, oid: nat, limit: int, now: int)
    ensures oid < |db.orders| ==> Still(db, OrKeep(DecideOne(db, oid, limit, now), db))
  {
    StillOrders(db, db);
    if oid < |db.orders| {
      var b := Some(db.orders[oid].battery);
      DecideTxStill(db, oid, ManualReview, None, now);
      DecideTxStill(db, oid, ManualReview, b, now);
      DecideTxStill(db, oid, RecreateOrder, b, now);
      DecideTxStill(db, oid, RefundDeposit, b, now);
    }
  }

  lemma {:induction false} RecoveryLoopStill(db: Db, cab: nat, n: nat, now: int)
    ensures Still(db, RecoveryLoop(db, cab, n, now))
    decreases n
  {
    StillOrders(db, db);
    if n > 0 {
      var next := if n <= |db.orders| && AwaitsRecovery(db.orders[n - 1], cab)
                  then OrKeep(DecideOne(db, n - 1, 24 * 3600, now), db) else db;
      DecideOneStill(db, n - 1, 24 * 3600, now);
      RecoveryLoopStill(next, cab, n - 1, now);
      StillChain(db, next, RecoveryLoop(next, cab, n - 1, now));
    }
  }

  lemma {:induction false} FailLoopStill(db: Db, cab: nat, k: nat, n: nat, now: int)
    ensures Still(db, FailLoop(db, cab, k, n, now))
    decreases n
  {
    StillOrders(db, db);
    if n > 0 {
      var next := if n <= |db.orders| && FailsUnlock(db.orders[n - 1], cab, k, now)
                  then db.(orders := db.orders[n - 1 := ToAbnormal(db.orders[n - 1], LockStuck)]) else db;
      StillOrders(db, next);
      FailLoopStill(next, cab, k, n - 1, now);
      StillChain(db, next, FailLoop(next, cab, k, n - 1, now));
    }
  }

  lemma RecoverCabinetStill(db: Db, cab: nat, now: int)
    ensures Still(db, RecoverCabinet(db, cab, now))
  {
    var online := SetCabinet(db, cab, Cabinet(Online, Some(now)));
    StillOrders(db, db);
    StillOrders(db, online);
    RecoveryLoopStill(online, cab, |db.orders|, now);
    StillChain(db, online, RecoveryLoop(online, cab, |db.orders|, now));
  }

  lemma HeartbeatStill(db: Db, cab: nat, accepted: bool, online: bool, now: int)
    ensures Still(db, Heartbeat(db, cab, accepted, online, now))
  {
    var stored := if accepted then SetCabinet(db, cab, Cabinet(Online, Some(now))) else db;
    StillOrders(db, db);
    StillOrders(db, stored);
    RecoverCabinetStill(stored, cab, now);
    StillChain(db, stored, RecoverCabinet(stored, cab, now));
  }

  lemma UnlockReportStill(db: Db, cab: nat, slotNo: nat, ok: bool, now: int)
    ensures Still(db, UnlockReport(db, cab, slotNo, ok, now))
  {
    StillOrders(db, db);
    var k := FindSlot(db.slots, cab, slotNo);
    if k.Some? {
      var emptied := ConfirmUnlock(db, k.value);
      StillOrders(db, emptied);
      UnlockLoopStill(emptied, cab, k.value, |db.orders|, now);
      StillChain(db, emptied, UnlockLoop(emptied, cab, k.value, |db.orders|, now));
      FailLoopStill(db, cab, k.value, |db.orders|, now);
    }
  }

  // ---------- renting ----------

  /** The books after inserting an order: its user's are off by delta, and `amount` was frozen for them. */
  ghost predicate Opened(db: Db, db': Db, u: nat, delta: int, amount: nat) {
    && |db'.users| == |db.users| && |db'.orders| == |db.orders| + 1
    && (forall who: set<nat> :: Ledger(db', who) == Ledger(db, who) + (if u in who then delta else 0))
    && (forall v: nat | v < |db.users| :: Cash(db', v) == Cash(db, v) + (if v == u then delta else 0))
    && (forall v: nat :: Freezes(db', v) == Freezes(db, v) + (if v == u then amount else 0))
    && (forall x: nat | x < |db.orders| :: Deposit(db', x) == Deposit(db, x) && Pledge(db', x) == Pledge(db, x))
    && Deposit(db', |db.orders|) == 0 && Pledge(db', |db.orders|) == 0
  }

  function OpeningRecords(db: Db, o: Order): seq<DepositRecord> {
    if o.depositAmt > 0 then [DepositRecord(|db.orders|, o.user, Freeze, o.depositAmt)] else []
  }

  function OpeningDrift(db: Db, snap: User, o: Order): int
    requires o.user < |db.users|
  {
    if o.depositAmt > 0 then snap.balance - db.users[o.user].balance else 0
  }

  /** Inserting an order moves a user's books by how far the balance had moved since it was read. */
  lemma OpenOrderMoves(db: Db, snap: User, o: Order)
    requires Linked(db) && o.user < |db.users|
    requires o.deposit == if o.depositAmt > 0 then Frozen else Unfrozen
    ensures Opened(db, OpenOrder(db, snap, o), o.user, OpeningDrift(db, snap, o), o.depositAmt)
  {
    var db' := OpenOrder(db, snap, o);
    var delta := OpeningDrift(db, snap, o);
    forall who: set<nat> ensures Ledger(db', who) == Ledger(db, who) + (if o.user in who then delta else 0) {
      OpenOrderLedger(db, snap, o, who);
    }
    forall v: nat
      ensures Freezes(db', v) == Freezes(db, v) + (if v == o.user then o.depositAmt else 0)
      ensures v < |db.users| ==> Cash(db', v) == Cash(db, v) + (if v == o.user then delta else 0)
    {
      OpenOrderCash(db, snap, o, v);
    }
    forall x: nat | x <= |db.orders|
      ensures x < |db.orders| ==> Deposit(db', x) == Deposit(db, x) && Pledge(db', x) == Pledge(db, x)
      ensures x == |db.orders| ==> Deposit(db', x) == 0 && Pledge(db', x) == 0
    {
      OpenOrderDeposit(db, snap, o, x);
    }
  }

  lemma OpenOrderLedger(db: Db, snap: User, o: Order, who: set<nat>)
    requires o.user < |db.users|
    requires o.deposit == if o.depositAmt > 0 then Frozen else Unfrozen
    ensures Ledger(OpenOrder(db, snap, o), who)
            == Ledger(db, who) + (if o.user in who then OpeningDrift(db, snap, o) else 0)
  {
    var db' := OpenOrder(db, snap, o);
    SumAppend(db.orders, [o], HeldBy(who));
    SumOne(o, HeldBy(who));
    OneRecord(db.records, OpeningRecords(db, o), EarnedFrom(who));
    BalancesUpdate(db.users, o.user, db'.users[o.user], who);
    assert db'.users == db.users[o.user := db'.users[o.user]];
    assert db'.records == db.records + OpeningRecords(db, o);
  }

  lemma OpenOrderCash(db: Db, snap: User, o: Order, v: nat)
    requires o.user < |db.users|
    ensures var db' := OpenOrder(db, snap, o);
            && Freezes(db', v) == Freezes(db, v) + (if v == o.user then o.depositAmt else 0)
            && Credits(db', v) == Credits(db, v)
            && (v < |db.users| ==> Cash(db', v) == Cash(db, v) + (if v == o.user then OpeningDrift(db, snap, o) else 0))
  {
    var db' := OpenOrder(db, snap, o);
    OneRecord(db.records, OpeningRecords(db, o), FrozenOf(v));
    OneRecord(db.records, OpeningRecords(db, o), CreditedTo(v));
    assert db'.records == db.records + OpeningRecords(db, o);
  }

  lemma OpenOrderDeposit(db: Db, snap: User, o: Order, x: nat)
    requires Linked(db) && o.user < |db.users| && x <= |db.orders|
    requires o.deposit == if o.depositAmt > 0 then Frozen else Unfrozen
    ensures Deposit(OpenOrder(db, snap, o), x) == if x < |db.orders| then Deposit(db, x) else 0
    ensures Pledge(OpenOrder(db, snap, o), x) == if x < |db.orders| then Pledge(db, x) else 0
  {
    var db', recs := OpenOrder(db, snap, o), OpeningRecords(db, o);
    assert db'.records == db.records + recs;
    OneRecord(db.records, recs, SettledOn(x));
    OneRecord(db.records, recs, FrozenFor(x));
    if x == |db.orders| {
      NoneSettled(db.records, x);
      assert db'.orders[x] == o;
    } else {
      assert db'.orders[x] == db.orders[x];
      assert recs != [] ==> SettledOn(x)(recs[0]) == 0 == FrozenFor(x)(recs[0]);
    }
  }

  lemma OneRecord(rs: seq<DepositRecord>, recs: seq<DepositRecord>, w: DepositRecord -> int)
    requires |recs| <= 1
    ensures SumBy(rs + recs, w) == SumBy(rs, w) + (if recs == [] then 0 else w(recs[0]))
  {
    SumAppend(rs, recs, w);
    if recs != [] {
      assert recs == [recs[0]];
      SumOne(recs[0], w);
    }
  }

  lemma {:induction false} NoneSettled(rs: seq<DepositRecord>, x: nat)
    requires forall i | 0 <= i < |rs| :: rs[i].order < x
    ensures SumBy(rs, SettledOn(x)) == 0 == SumBy(rs, FrozenFor(x))
  {
    if rs != [] {
      NoneSettled(rs[..|rs| - 1], x);
    }
  }

  lemma SameMoneyBooks(db: Db, db1: Db, db2: Db)
    requires Books(db, db1) && SameMoney(db1, db2)
    ensures Books(db, db2)
  {
    forall who: set<nat> ensures Ledger(db2, who) == Ledger(db1, who) {}
    forall x: nat | x < |db2.orders| ensures Deposit(db2, x) == Deposit(db1, x) && Pledge(db2, x) == Pledge(db1, x) {}
  }

  lemma BooksRefl(db: Db)
    ensures Books(db, db)
  {
  }

  lemma CreateAbnormalBooks(db: Db, u: nat, cab: nat, slotNo: Option<nat>, reason: Reason, now: int)
    requires Linked(db)
    ensures var r := CreateAbnormal(db, u, cab, slotNo, reason, now);
            r.Some? ==> Books(db, r.value)
  {
    hide AbnormalSlot, Ledger, Cash, Deposit, Pledge;
    var r := CreateAbnormal(db, u, cab, slotNo, reason, now);
    if r.Some? {
      OpenOrderMoves(db, db.users[u], r.value.orders[|db.orders|]);
      assert r.value == OpenOrder(db, db.users[u], r.value.orders[|db.orders|]);
    }
  }

  lemma RentBooks(db: Db, u: nat, k: nat, now: int)
    requires Linked(db) && u < |db.users|
    ensures var r := RentTx(db, u, db.users[u], k, now);
            r.Some? ==> Books(db, r.value)
  {
    var r := RentTx(db, u, db.users[u], k, now);
    if r.Some? {
      var o := r.value.orders[|db.orders|];
      OpenOrderMoves(db, db.users[u], o);
      SameMoneyBooks(db, OpenOrder(db, db.users[u], o), r.value);
    }
  }

  lemma ScanBooks(db: Db, u: nat, cab: nat, slotNo: Option<nat>, now: int)
    requires Linked(db)
    ensures Books(db, Scan(db, u, cab, slotNo, now).db)
  {
    var marked, no, reason, k := ScanCases(db, u, cab, slotNo, now);
    var s := Scan(db, u, cab, slotNo, now);
    assert Linked(marked);
    BooksRefl(db);
    SameMoneyBooks(db, db, marked);
    CreateAbnormalBooks(marked, u, cab, no, reason, now);
    if u < |db.users| { RentBooks(marked, u, k, now); }
    if s.ok { BooksChain(db, marked, s.db); }
  }

  // ---------- every action ----------

  lemma DetectStill(db: Db, cab: nat, slotNo: nat, b: nat, soc: int, tempOk: bool, now: int)
    ensures Still(db, OrKeep(DetectReturn(db, cab, slotNo, b, soc, tempOk, now), db))
  {
    StillOrders(db, db);
    var found, k := LatestRental(db.orders, b), FindSlot(db.slots, cab, slotNo);
    if found.Some? && k.Some? && b < |db.batteries| {
      var oid, review := found.value, NeedsReview(db, found, b, soc, tempOk);
      DetectTxMoves(db, oid, db.orders[oid], review, cab, k.value, b, soc, now);
      var r := DetectTx(db, oid, db.orders[oid], review, cab, k.value, b, soc, now);
      if r.Some? { StillFromMoved(db, r.value, oid, db.orders[oid].user); }
    }
  }

  lemma OperatorsStill(db: Db, oid: nat)
    requires oid < |db.orders| && db.orders[oid].user < |db.users|
    ensures forall cab, no, now :: Still(db, OrKeep(ManualReturn(db, oid, cab, no, now), db))
    ensures forall fee, now :: Still(db, OrKeep(LostTx(db, oid, db.orders[oid], fee, now), db))
    ensures forall fee :: Still(db, OrKeep(DamageTx(db, oid, db.orders[oid], fee), db))
    ensures forall action, now :: Still(db, OrKeep(OperatorTx(db, oid, db.orders[oid], action, now), db))
  {
    StillOrders(db, db);
    var o := db.orders[oid];
    forall cab: nat, no: nat, now: int ensures Still(db, OrKeep(ManualReturn(db, oid, cab, no, now), db)) {
      if o.battery < |db.batteries| { ManualTxMoves(db, oid, o, db.batteries[o.battery], cab, no, now); }
    }
    forall fee: int, now: int ensures Still(db, OrKeep(LostTx(db, oid, o, fee, now), db)) {
      LostTxMoves(db, oid, o, fee, now);
    }
    forall fee: int ensures Still(db, OrKeep(DamageTx(db, oid, o, fee), db)) {
      DamageTxMoves(db, oid, o, fee);
    }
    forall action: CompAction, now: int ensures Still(db, OrKeep(OperatorTx(db, oid, o, action, now), db)) {
      OperatorTxMoves(db, oid, o, action, now);
    }
  }

  lemma FlagsStill(db: Db, a: Action)
    requires a.DoUnlockFailure? || a.DoCreateDispute? || a.DoSlotEntry? || a.DoAssign?
    ensures Still(db, Apply(db, a))
  {
    StillOrders(db, Apply(db, a));
  }

  /** Every handler but a scan leaves the books still, and freezes nothing. */
  lemma AttemptStill(db: Db, a: Action)
    requires Linked(db) && !a.DoScan?
    ensures Still(db, Apply(db, a))
  {
    StillOrders(db, db);
    match a
    case DoRecharge(u, amount) => RechargeStill(db, u, amount);
    case DoCallback(cb) => CallbackTxStill(db, cb);
    case DoDetect(cab, no, b, soc, tempOk, now) => DetectStill(db, cab, no, b, soc, tempOk, now);
    case DoManual(oid, cab, no, now) => if oid < |db.orders| { OperatorsStill(db, oid); }
    case DoLost(oid, fee, now) => if oid < |db.orders| { OperatorsStill(db, oid); }
    case DoDamage(oid, fee) => if oid < |db.orders| { OperatorsStill(db, oid); }
    case DoOperator(oid, action, now) => if oid < |db.orders| { OperatorsStill(db, oid); }
    case DoHandleDispute(d, decision, adjust, refund) => HandleDisputeTxStill(db, d, decision, adjust, refund);
    case DoUnlockReport(cab, no, ok, now) => UnlockReportStill(db, cab, no, ok, now);
    case DoHeartbeat(cab, accepted, online, now) => HeartbeatStill(db, cab, accepted, online, now);
    case DoReplayed(cab, now) => RecoverCabinetStill(db, cab, now);
    case _ => FlagsStill(db, a);
  }

  lemma ApplyBooks(db: Db, a: Action)
    requires Linked(db)
    ensures Books(db, Apply(db, a))
  {
    if a.DoScan? {
      ScanBooks(db, a.u, a.cab, a.no, a.now);
    } else {
      AttemptStill(db, a);
      MovedNowhere(db, Apply(db, a), 0, 0);
    }
  }
}
