/** Families of runs, one for each place where the service falls short of what it is for. */
module Traces {
  import opened Models
  import opened Transactions
  import opened Handlers
  import opened Bookkeeping
  import opened Conservation
  import opened Lifecycle
  import opened Agreement
  import opened Compensation
  import opened Interleaving

  /** A renting order with a frozen deposit that is not yet returned, and nobody acting on it. */
  ghost predicate Out(w: World, p: nat, oid: nat) {
    && Sane(w) && p !in w.procs
    && oid < |w.db.orders| && oid !in w.db.returned
    && w.db.orders[oid].status == Renting && Held(w.db.orders[oid]) > 0
    && OrderLinked(w.db, w.db.orders[oid])
  }

  predicate FreeSlot(db: Db, cab: nat, no: nat) {
    FindSlot(db.slots, cab, no).Some? && db.slots[FindSlot(db.slots, cab, no).value].status != Occupied
  }

  /** The books of every group with the order's user in it, and the order's own deposit, are off by the deposit. */
  ghost predicate SettledTwice(db: Db, db': Db, oid: nat) {
    && oid < |db.orders| && |db'.orders| == |db.orders|
    && Deposit(db', oid) == Deposit(db, oid) + Held(db.orders[oid])
    && forall who: set<nat> | db.orders[oid].user in who :: Ledger(db', who) == Ledger(db, who) + Held(db.orders[oid])
  }

  lemma PlayMore(w: World, es: seq<Event>, e: Event)
    ensures Play(w, es + [e]) == Next(Play(w, es), e)
  {
    assert (es + [e])[..|es + [e]| - 1] == es;
  }

  function Read(w: World, p: nat, oid: nat): World
    requires oid < |w.db.orders| && w.db.orders[oid].battery < |w.db.batteries|
  {
    w.(procs := w.procs[p := HasOrder(oid, w.db.orders[oid], w.db.batteries[w.db.orders[oid].battery], false)])
  }

  lemma PlayRead(w: World, p: nat, oid: nat)
    requires p !in w.procs && oid < |w.db.orders| && w.db.orders[oid].battery < |w.db.batteries|
    ensures Play(w, [ReadOrder(p, oid)]) == Read(w, p, oid)
  {
    hide CommitTx, BookTx, FailTx, MarkTx, Apply;
    PlayMore(w, [], ReadOrder(p, oid));
    assert [] + [ReadOrder(p, oid)] == [ReadOrder(p, oid)];
  }

  lemma PlayAtomic(w: World, es: seq<Event>, m: World, a: Action)
    requires Play(w, es) == m && !a.DoScan?
    ensures Play(w, es + [Atomic(a)]) == m.(db := Apply(m.db, a))
  {
    hide CommitTx, BookTx, FailTx, MarkTx, Apply;
    PlayMore(w, es, Atomic(a));
  }

  lemma PlayCommit(w: World, es: seq<Event>, m: World, e: Event, proc: Proc)
    requires Play(w, es) == m
    requires IsCommit(e) && e.p in m.procs && m.procs[e.p] == proc
    requires proc.HasOrder? && proc.deciding == e.CommitDecision?
    requires CommitTx(m.db, e, proc.oid, proc.order, proc.bat).Some?
    ensures Play(w, es + [e]).db == CommitTx(m.db, e, proc.oid, proc.order, proc.bat).value
  {
    hide CommitTx, BookTx, FailTx, MarkTx, Apply;
    PlayMore(w, es, e);
  }

  /** An action between a handler's last read and its commit. */
  lemma Behind(w: World, es: seq<Event>, m: World, a: Action, e: Event)
    requires Play(w, es) == m && !a.DoScan?
    requires IsCommit(e) && e.p in m.procs && m.procs[e.p].HasOrder? && m.procs[e.p].deciding == e.CommitDecision?
    requires CommitTx(Apply(m.db, a), e, m.procs[e.p].oid, m.procs[e.p].order, m.procs[e.p].bat).Some?
    ensures Play(w, es + [Atomic(a)] + [e]).db
         == CommitTx(Apply(m.db, a), e, m.procs[e.p].oid, m.procs[e.p].order, m.procs[e.p].bat).value
  {
    PlayAtomic(w, es, m, a);
    var m' := m.(db := Apply(m.db, a));
    PlayCommit(w, es + [Atomic(a)], m', e, m'.procs[e.p]);
  }

  /** A handler that has read an order, then another action that settles the deposit, then the handler's commit. */
  lemma CommitBehind(w: World, p: nat, oid: nat, a: Action, e: Event)
    requires Out(w, p, oid) && !a.DoScan? && IsCommit(e) && !e.CommitDecision? && e.p == p
    requires var after := Apply(w.db, a);
             && |after.orders| == |w.db.orders| && Held(after.orders[oid]) == 0
             && SameIdentity(after.orders[oid], w.db.orders[oid])
             && CommitTx(after, e, oid, w.db.orders[oid], w.db.batteries[w.db.orders[oid].battery]).Some?
    ensures var end := Play(w, [ReadOrder(p, oid), Atomic(a), e]).db;
            && SettledTwice(w.db, end, oid)
            && Some(end) == CommitTx(Apply(w.db, a), e, oid, w.db.orders[oid], w.db.batteries[w.db.orders[oid].battery])
  {
    hide CommitTx, Apply, Next, Enabled;
    PlayRead(w, p, oid);
    Behind(w, [ReadOrder(p, oid)], Read(w, p, oid), a, e);
    assert [ReadOrder(p, oid)] + [Atomic(a)] + [e] == [ReadOrder(p, oid), Atomic(a), e];
    AtomicKeepsRefs(w.db, a);
    AttemptStill(w.db, a);
    CommitMoves(Apply(w.db, a), e, oid, w.db.orders[oid], w.db.batteries[w.db.orders[oid].battery]);
  }

  // ---------- MarkLost beside a return ----------

  lemma LostFirst(db: Db, oid: nat, fee: int, lostAt: int, cab: nat, no: nat, now: int)
    requires Base(db) && oid < |db.orders| && oid !in db.returned
    requires db.orders[oid].status == Renting && OrderLinked(db, db.orders[oid]) && FreeSlot(db, cab, no)
    ensures var lost := Apply(db, DoLost(oid, fee, lostAt));
            && |lost.orders| == |db.orders| && lost.orders[oid].status == Lost && Held(lost.orders[oid]) == 0
            && SameIdentity(lost.orders[oid], db.orders[oid])
            && ManualTx(lost, oid, db.orders[oid], db.batteries[db.orders[oid].battery], cab, no, now).Some?
  {
  }

  /** A return that has read its order, then MarkLost, then the return's commit: both settle the deposit. They hold
      different lock keys, and MarkLost writes no return record for the unique index to catch. */
  lemma LostBesideReturnSettlesTwice(w: World, p: nat, oid: nat, fee: int, lostAt: int, cab: nat, no: nat, now: int)
    requires Out(w, p, oid) && FreeSlot(w.db, cab, no)
    ensures var end := Play(w, [ReadOrder(p, oid), Atomic(DoLost(oid, fee, lostAt)), CommitManual(p, cab, no, now)]);
            && SettledTwice(w.db, end.db, oid)
            && end.db.orders[oid].status == Completed
  {
    LostFirst(w.db, oid, fee, lostAt, cab, no, now);
    CommitBehind(w, p, oid, DoLost(oid, fee, lostAt), CommitManual(p, cab, no, now));
  }

  // ---------- two operators ----------

  lemma RefundCommits(w: World, p: nat, oid: nat, snap: Order, bat: Battery, now: int)
    requires Sane(w) && p in w.procs && w.procs[p] == HasOrder(oid, snap, bat, false)
    requires snap.status == Abnormal && snap.comp != CompDone && Held(snap) > 0
    ensures oid < |w.db.orders| && snap.user < |w.db.users|
    ensures var e := CommitOperator(p, RefundDeposit, now); var w' := Next(w, e);
            && Sane(w') && w'.procs == w.procs - {p}
            && Moved(w.db, w'.db, oid, snap.user, Staleness(w.db, oid, snap))
            && Held(w'.db.orders[oid]) == 0
            && w'.db.users[snap.user].balance == w.db.users[snap.user].balance + Held(snap)
  {
    var e := CommitOperator(p, RefundDeposit, now);
    assert OrderLinked(w.db, w.db.orders[oid]);
    CommitMoves(w.db, e, oid, snap, bat);
    NextSane(w, e);
  }

  lemma ReadTwice(w: World, p: nat, q: nat, oid: nat)
    requires p !in w.procs && q !in w.procs && p != q
    requires oid < |w.db.orders| && w.db.orders[oid].battery < |w.db.batteries|
    ensures Play(w, [ReadOrder(p, oid), ReadOrder(q, oid)]) == Read(Read(w, p, oid), q, oid)
  {
    PlayRead(w, p, oid);
    PlayMore(w, [ReadOrder(p, oid)], ReadOrder(q, oid));
    assert [ReadOrder(p, oid)] + [ReadOrder(q, oid)] == [ReadOrder(p, oid), ReadOrder(q, oid)];
  }

  /** Two operators who both read an abnormal order before either refunds it refund it twice. */
  lemma TwoOperatorsRefundTwice(w: World, p: nat, q: nat, oid: nat, now: int)
    requires Sane(w) && p !in w.procs && q !in w.procs && p != q
    requires oid < |w.db.orders| && OrderLinked(w.db, w.db.orders[oid])
    requires w.db.orders[oid].status == Abnormal && w.db.orders[oid].comp != CompDone && Held(w.db.orders[oid]) > 0
    ensures var o := w.db.orders[oid];
            var end := Play(w, [ReadOrder(p, oid), ReadOrder(q, oid),
                                CommitOperator(p, RefundDeposit, now), CommitOperator(q, RefundDeposit, now)]);
            && SettledTwice(w.db, end.db, oid) && |end.db.users| == |w.db.users|
            && end.db.users[o.user].balance == w.db.users[o.user].balance + 2 * o.depositAmt
  {
    hide Next, Enabled, CommitTx, Apply;
    var e1, e2 := ReadOrder(p, oid), ReadOrder(q, oid);
    var e3, e4 := CommitOperator(p, RefundDeposit, now), CommitOperator(q, RefundDeposit, now);
    var snap, bat := w.db.orders[oid], w.db.batteries[w.db.orders[oid].battery];
    PlayRead(w, p, oid);
    PlayMore(w, [e1], e2);
    PlayMore(w, [e1, e2], e3);
    PlayMore(w, [e1, e2, e3], e4);
    assert [e1] + [e2] == [e1, e2] && [e1, e2] + [e3] == [e1, e2, e3] && [e1, e2, e3] + [e4] == [e1, e2, e3, e4];
    var w2 := Play(w, [e1, e2]);
    PlaySane(w, [e1, e2]);
    ReadTwice(w, p, q, oid);
    RefundCommits(w2, p, oid, snap, bat, now);
    RefundCommits(Play(w, [e1, e2, e3]), q, oid, snap, bat, now);
  }

  // ---------- MarkDamage beside a return ----------

  lemma ReturnedFirst(db: Db, oid: nat, fee: int, cab: nat, no: nat, now: int)
    requires Base(db) && oid < |db.orders| && oid !in db.returned
    requires db.orders[oid].status == Renting && OrderLinked(db, db.orders[oid]) && FreeSlot(db, cab, no)
    ensures var back := Apply(db, DoManual(oid, cab, no, now));
            && |back.orders| == |db.orders| && back.orders[oid].status == Completed && Held(back.orders[oid]) == 0
            && SameIdentity(back.orders[oid], db.orders[oid])
            && DamageTx(back, oid, db.orders[oid], fee).Some?
  {
  }

  /** MarkDamage saves the whole row it read, so a return in between is undone on the order: it rents again, with a
      deposit that has been settled. */
  lemma DamageBesideReturnRevives(w: World, p: nat, oid: nat, fee: int, cab: nat, no: nat, now: int)
    requires Out(w, p, oid) && FreeSlot(w.db, cab, no)
    ensures var end := Play(w, [ReadOrder(p, oid), Atomic(DoManual(oid, cab, no, now)), CommitDamage(p, fee)]);
            && SettledTwice(w.db, end.db, oid) && oid in end.db.returned
            && end.db.orders[oid].status == Renting && Held(end.db.orders[oid]) == Held(w.db.orders[oid])
  {
    ReturnedFirst(w.db, oid, fee, cab, no, now);
    CommitBehind(w, p, oid, DoManual(oid, cab, no, now), CommitDamage(p, fee));
  }

  // ---------- an automatic decision beside an operator ----------

  /** The decision has listed the order and read it again. */
  function Deciding(w: World, p: nat, oid: nat): World
    requires oid < |w.db.orders| && w.db.orders[oid].battery < |w.db.batteries|
  {
    w.(procs := w.procs[p := HasOrder(oid, w.db.orders[oid], w.db.batteries[w.db.orders[oid].battery], true)])
  }

  lemma PlayReadAgain(w: World, es: seq<Event>, m: World, p: nat, proc: Proc)
    requires Play(w, es) == m && p in m.procs && m.procs[p] == proc && proc.HasOrder? && !proc.deciding
    requires proc.order.status == Abnormal && proc.order.comp == CompOpen && proc.oid < |m.db.orders|
    ensures Play(w, es + [ReadAgain(p)])
         == m.(procs := m.procs[p := HasOrder(proc.oid, m.db.orders[proc.oid], proc.bat, true)])
  {
    hide CommitTx, BookTx, FailTx, MarkTx, Apply;
    PlayMore(w, es, ReadAgain(p));
  }

  lemma PlayReads(w: World, p: nat, oid: nat)
    requires p !in w.procs && oid < |w.db.orders| && w.db.orders[oid].battery < |w.db.batteries|
    requires w.db.orders[oid].status == Abnormal && w.db.orders[oid].comp == CompOpen
    ensures Play(w, [ReadOrder(p, oid), ReadAgain(p)]) == Deciding(w, p, oid)
  {
    hide Next, Enabled;
    PlayRead(w, p, oid);
    var m := Read(w, p, oid);
    PlayReadAgain(w, [ReadOrder(p, oid)], m, p, m.procs[p]);
    assert m.procs[p := HasOrder(oid, w.db.orders[oid], m.procs[p].bat, true)] == Deciding(w, p, oid).procs;
    assert [ReadOrder(p, oid)] + [ReadAgain(p)] == [ReadOrder(p, oid), ReadAgain(p)];
  }

  lemma OperatorFirst(db: Db, oid: nat, suggested: CompAction, battery: Option<nat>, now: int)
    requires Base(db) && oid < |db.orders| && OrderLinked(db, db.orders[oid])
    requires db.orders[oid].status == Abnormal && db.orders[oid].comp == CompOpen && Held(db.orders[oid]) > 0
    ensures var o, refunded := db.orders[oid], Apply(db, DoOperator(oid, RefundDeposit, now));
            && |refunded.orders| == |db.orders| && Held(refunded.orders[oid]) == 0
                && SameIdentity(refunded.orders[oid], o)
            && |refunded.users| == |db.users| && o.user < |db.users|
            && refunded.users[o.user].balance == db.users[o.user].balance + Held(o)
            && DecideFrom(refunded, oid, o, suggested, battery, now).Some?
  {
  }

  /** The decision reads the order again outside its transaction and holds a key nobody else takes: an operator's refund
      in between is settled a second time, whatever the decision. A refund is paid twice; a review or a recreation
      writes the deposit back as frozen. */
  lemma DecisionBesideOperatorSettlesTwice(w: World, p: nat, oid: nat, suggested: CompAction, battery: Option<nat>,
      now: int)
    requires Sane(w) && p !in w.procs && oid < |w.db.orders| && OrderLinked(w.db, w.db.orders[oid])
    requires w.db.orders[oid].status == Abnormal && w.db.orders[oid].comp == CompOpen && Held(w.db.orders[oid]) > 0
    ensures var o := w.db.orders[oid];
            var end := Play(w, [ReadOrder(p, oid), ReadAgain(p), Atomic(DoOperator(oid, RefundDeposit, now)),
                                CommitDecision(p, suggested, battery, now)]).db;
            && SettledTwice(w.db, end, oid) && |end.users| == |w.db.users|
            && (if suggested == RefundDeposit
                then end.users[o.user].balance == w.db.users[o.user].balance + 2 * o.depositAmt
                else Held(end.orders[oid]) == Held(o))
  {
    var o, a, e := w.db.orders[oid], DoOperator(oid, RefundDeposit, now), CommitDecision(p, suggested, battery, now);
    var prefix := [ReadOrder(p, oid), ReadAgain(p)];
    PlayReads(w, p, oid);
    OperatorFirst(w.db, oid, suggested, battery, now);
    Behind(w, prefix, Deciding(w, p, oid), a, e);
    assert prefix + [Atomic(a)] + [e] == [ReadOrder(p, oid), ReadAgain(p), Atomic(a), e];
    AtomicKeepsRefs(w.db, a);
    AttemptStill(w.db, a);
    DecideFromMoves(Apply(w.db, a), oid, o, suggested, battery, now);
  }

  /** The fresh row's status is not looked at: an order disputed between the list and the decision is refunded and
      closed after all. */
  lemma DecisionSettlesDisputedOrder(w: World, p: nat, oid: nat, battery: Option<nat>, now: int)
    requires Sane(w) && p !in w.procs && oid < |w.db.orders| && OrderLinked(w.db, w.db.orders[oid])
    requires var o := w.db.orders[oid]; o.status == Abnormal && o.comp == CompOpen && Held(o) > 0
    ensures var o := w.db.orders[oid];
            var dispute := DoCreateDispute(o.user, oid);
            var end := Play(w, [ReadOrder(p, oid), Atomic(dispute), ReadAgain(p),
                                CommitDecision(p, RefundDeposit, battery, now)]).db;
            && |end.orders| == |Apply(w.db, dispute).orders| == |w.db.orders|
            && Apply(w.db, dispute).orders[oid].status == Disputed && Held(Apply(w.db, dispute).orders[oid]) == Held(o)
            && end.orders[oid].status == Compensated && Held(end.orders[oid]) == 0
  {
    var dispute, e := DoCreateDispute(w.db.orders[oid].user, oid), CommitDecision(p, RefundDeposit, battery, now);
    PlayRead(w, p, oid);
    PlayAtomic(w, [ReadOrder(p, oid)], Read(w, p, oid), dispute);
    assert [ReadOrder(p, oid)] + [Atomic(dispute)] == [ReadOrder(p, oid), Atomic(dispute)];
    var disputed := Apply(w.db, dispute);
    var m := Read(w, p, oid).(db := disputed);
    PlayReadAgain(w, [ReadOrder(p, oid), Atomic(dispute)], m, p, m.procs[p]);
    assert [ReadOrder(p, oid), Atomic(dispute)] + [ReadAgain(p)] == [ReadOrder(p, oid), Atomic(dispute), ReadAgain(p)];
    var m' := m.(procs := m.procs[p := HasOrder(oid, disputed.orders[oid], m.procs[p].bat, true)]);
    PlayCommit(w, [ReadOrder(p, oid), Atomic(dispute), ReadAgain(p)], m', e, m'.procs[p]);
    assert [ReadOrder(p, oid), Atomic(dispute), ReadAgain(p)] + [e]
        == [ReadOrder(p, oid), Atomic(dispute), ReadAgain(p), e];
  }

  // ---------- a check made on a row that has changed ----------

  lemma PlayFail(w: World, es: seq<Event>, m: World, p: nat, reason: Reason, proc: Proc)
    requires Play(w, es) == m && p in m.procs && m.procs[p] == proc && proc.HasOrder? && !proc.deciding
    requires FailTx(m.db, proc.oid, proc.order, reason).Some?
    ensures Play(w, es + [Fail(p, reason)]).db == FailTx(m.db, proc.oid, proc.order, reason).value
  {
    hide CommitTx, BookTx, FailTx, MarkTx, Apply;
    PlayMore(w, es, Fail(p, reason));
  }

  lemma FailBehind(w: World, p: nat, oid: nat, a: Action, reason: Reason)
    requires p !in w.procs && !a.DoScan? && oid < |w.db.orders| && w.db.orders[oid].battery < |w.db.batteries|
    requires FailTx(Apply(w.db, a), oid, w.db.orders[oid], reason).Some?
    ensures Play(w, [ReadOrder(p, oid), Atomic(a), Fail(p, reason)]).db
         == FailTx(Apply(w.db, a), oid, w.db.orders[oid], reason).value
  {
    PlayRead(w, p, oid);
    PlayAtomic(w, [ReadOrder(p, oid)], Read(w, p, oid), a);
    assert [ReadOrder(p, oid)] + [Atomic(a)] == [ReadOrder(p, oid), Atomic(a)];
    var m := Read(w, p, oid).(db := Apply(w.db, a));
    PlayFail(w, [ReadOrder(p, oid), Atomic(a)], m, p, reason, m.procs[p]);
    assert [ReadOrder(p, oid), Atomic(a)] + [Fail(p, reason)] == [ReadOrder(p, oid), Atomic(a), Fail(p, reason)];
  }

  lemma ReopenedUnsettled(db: Db, oid: nat, cab: nat, no: nat, back: int, reason: Reason, now: int)
    requires Base(db) && oid < |db.orders| && OrderLinked(db, db.orders[oid]) && oid !in db.returned
    requires db.orders[oid].status == Renting && Held(db.orders[oid]) > 0 && db.orders[oid].comp == CompOpen
    requires FreeSlot(db, cab, no)
    ensures var back := Apply(db, DoManual(oid, cab, no, back));
            var abnormal := FailTx(back, oid, db.orders[oid], reason);
            && abnormal.Some? && |abnormal.value.orders| == |db.orders|
            && abnormal.value.orders[oid].status == Abnormal && Held(abnormal.value.orders[oid]) == 0
            && oid in abnormal.value.returned
            && var end := Apply(abnormal.value, DoOperator(oid, RecreateOrder, now));
            && |end.orders| == |db.orders| && oid in end.returned
            && end.orders[oid].status == Renting && end.orders[oid].depositAmt > 0 && Held(end.orders[oid]) == 0
  {
    ReturnedFirst(db, oid, 0, cab, no, back);
    AtomicKeepsRefs(db, DoManual(oid, cab, no, back));
    var returned := Apply(db, DoManual(oid, cab, no, back));
    assert OrderLinked(returned, returned.orders[oid]);
    assert oid in returned.returned;
  }

  lemma ReturnedForGood(db: Db, oid: nat)
    requires oid in db.returned
    ensures forall cab, no, t :: ManualReturn(db, oid, cab, no, t) == None
  {
  }

  /** ReportUnlockFailure writes its columns to whatever the order is by then. Beside a return it makes the returned
      order abnormal again, and compensation can reopen it: it then rents without a deposit, and the unique return
      record lets no return of it ever commit. */
  lemma FailureBesideReturnReopens(w: World, p: nat, oid: nat, cab: nat, no: nat, back: int, reason: Reason, now: int)
    requires Out(w, p, oid) && FreeSlot(w.db, cab, no) && w.db.orders[oid].comp == CompOpen
    ensures var abnormal := Play(w, [ReadOrder(p, oid), Atomic(DoManual(oid, cab, no, back)), Fail(p, reason)]).db;
            && |abnormal.orders| == |w.db.orders|
            && abnormal.orders[oid].status == Abnormal && Held(abnormal.orders[oid]) == 0
            && var end := Apply(abnormal, DoOperator(oid, RecreateOrder, now));
            && |end.orders| == |w.db.orders|
            && end.orders[oid].status == Renting && end.orders[oid].depositAmt > 0 && Held(end.orders[oid]) == 0
            && forall cab', no', t :: ManualReturn(end, oid, cab', no', t) == None
  {
    ReopenedUnsettled(w.db, oid, cab, no, back, reason, now);
    FailBehind(w, p, oid, DoManual(oid, cab, no, back), reason);
    var abnormal := FailTx(Apply(w.db, DoManual(oid, cab, no, back)), oid, w.db.orders[oid], reason).value;
    ReturnedForGood(Apply(abnormal, DoOperator(oid, RecreateOrder, now)), oid);
  }

  // ---------- an unlock report that reopens the wrong order ----------

  /** A battery ready to rent in slot k of an offline cabinet, and a user with nothing active who can pay twice. */
  ghost predicate ReadyAt(db: Db, u: nat, cab: nat, no: nat, k: nat) {
    && Base(db) && cab < |db.cabinets| && db.cabinets[cab].status == Offline
    && no != 0 && FindSlot(db.slots, cab, no) == Some(k) && Rentable(db, k)
    && DefaultRule(db.rules).Some?
    && u < |db.users| && db.users[u].active && !HasActive(db.orders, u)
    && (db.users[u].depositFree || db.users[u].balance >= 2 * db.depositAmt)
  }

  function Booked(db: Db, a: nat, cab: nat, no: nat, now: int): Db { Scan(db, a, cab, Some(no), now).db }
  function Reached(db: Db, cab: nat, now: int): Db { Heartbeat(db, cab, true, true, now) }

  lemma SlotKept(before: seq<Slot>, after: seq<Slot>, cab: nat, no: nat, k: nat)
    requires FindSlot(before, cab, no) == Some(k) && |after| == |before|
    requires forall i | 0 <= i < |before| ::
               after[i].cabinet == before[i].cabinet && after[i].slotNo == before[i].slotNo
    ensures FindSlot(after, cab, no) == Some(k)
  {
    var r := FindSlot(after, cab, no);
    if r.Some? {
      assert before[r.value].cabinet == cab && before[r.value].slotNo == no;
    }
    assert before[k].cabinet == cab && before[k].slotNo == no && after[k].cabinet == cab && after[k].slotNo == no;
  }

  /** First user: the offline cabinet gives an abnormal order, and its next heartbeat decides nothing. */
  lemma FirstScan(db: Db, a: nat, b: nat, cab: nat, no: nat, k: nat, t: int, t': int)
    requires ReadyAt(db, a, cab, no, k) && ReadyAt(db, b, cab, no, k)
    ensures var up := Reached(Booked(db, a, cab, no, t), cab, t');
            && |up.orders| == |db.orders| + 1 && up.slots == db.slots && up.batteries == db.batteries
            && |up.users| == |db.users| && up.rules == db.rules && up.depositAmt == db.depositAmt
            && |up.cabinets| == |db.cabinets| && up.cabinets[cab] == Cabinet(Online, Some(t'))
            && (forall i | 0 <= i < |db.orders| :: up.orders[i] == db.orders[i])
            && AwaitsUnlock(up.orders[|db.orders|], cab, k) && up.orders[|db.orders|].createdAt == t
            && up.orders[|db.orders|].battery == db.slots[k].battery.value
            && up.users[b].active && CanPay(up, up.users[b])
  {
  }

  /** Second user: the same battery is rented normally. */
  lemma SecondScan(up: Db, b: nat, cab: nat, no: nat, k: nat, t': int, now: int)
    requires Base(up) && cab < |up.cabinets| && up.cabinets[cab] == Cabinet(Online, Some(t')) && now - t' <= 300
    requires FindSlot(up.slots, cab, no) == Some(k) && Rentable(up, k) && DefaultRule(up.rules).Some?
    requires b < |up.users| && up.users[b].active && CanPay(up, up.users[b]) && !HasActive(up.orders, b)
    ensures var out := Booked(up, b, cab, no, now);
            && |out.orders| == |up.orders| + 1 && |out.slots| == |up.slots|
            && (forall i | 0 <= i < |up.orders| :: out.orders[i] == up.orders[i])
            && out.orders[|up.orders|].status == Renting && out.orders[|up.orders|].user == b
            && out.orders[|up.orders|].battery == up.slots[k].battery.value
            && |out.batteries| == |up.batteries| && out.batteries[up.slots[k].battery.value].status == InUse
            && (forall i | 0 <= i < |up.slots| ::
                  out.slots[i].cabinet == up.slots[i].cabinet && out.slots[i].slotNo == up.slots[i].slotNo)
  {
  }

  /** The unlock report: the second user took the battery, and the first user's order is reopened for it. */
  lemma ThirdReport(out: Db, cab: nat, no: nat, k: nat, i: nat, j: nat, now: int)
    requires Linked(out) && FindSlot(out.slots, cab, no) == Some(k)
    requires i < j < |out.orders| && AwaitsUnlock(out.orders[i], cab, k) && out.orders[i].createdAt + 3600 >= now
    requires out.orders[j].status == Renting && out.orders[j].battery == out.orders[i].battery
    requires out.orders[i].battery < |out.batteries| && out.batteries[out.orders[i].battery].status == InUse
    ensures var end := UnlockReport(out, cab, no, true, now);
            && |end.orders| == |out.orders| && !Agree(end)
            && end.orders[i].status == end.orders[j].status == Renting
            && end.orders[i].user == out.orders[i].user && end.orders[j].user == out.orders[j].user
            && end.orders[i].battery == end.orders[j].battery
  {
    UnlockReportNeverRefunds(out, cab, no, now);
    assert AfterUnlock(out, out.orders[i], now).status == Renting;
  }

  /** a scans an offline cabinet, the cabinet's heartbeat arrives, b rents the battery, the unlock report arrives within
      the hour of a's scan: both orders rent one battery. When a and b are one user, that user has two active orders. */
  lemma UnlockReportReopensTheWrongOrder(db: Db, a: nat, b: nat, cab: nat, no: nat, k: nat,
                                         t: int, t': int, t'': int, now: int)
    requires ReadyAt(db, a, cab, no, k) && ReadyAt(db, b, cab, no, k) && t'' - t' <= 300 && now <= t + 3600
    ensures var n := |db.orders|;
            var end := UnlockReport(Booked(Reached(Booked(db, a, cab, no, t), cab, t'), b, cab, no, t''), cab, no,
                true, now);
            && |end.orders| == n + 2 && !Agree(end)
            && end.orders[n].user == a && end.orders[n + 1].user == b
            && end.orders[n].status == end.orders[n + 1].status == Renting
            && end.orders[n].battery == end.orders[n + 1].battery
  {
    var n := |db.orders|;
    var up := Reached(Booked(db, a, cab, no, t), cab, t');
    FirstScan(db, a, b, cab, no, k, t, t');
    ScanSteps(db, a, cab, Some(no), t);
    HeartbeatSteps(Booked(db, a, cab, no, t), cab, true, true, t');
    assert !HasActive(up.orders, b) by {
      forall i | 0 <= i < |up.orders| && up.orders[i].user == b ensures !Active(up.orders[i]) {}
    }
    SecondScan(up, b, cab, no, k, t', t'');
    ScanSteps(up, b, cab, Some(no), t'');
    var out := Booked(up, b, cab, no, t'');
    SlotKept(up.slots, out.slots, cab, no, k);
    ThirdReport(out, cab, no, k, n, n + 1, now);
    assert up.orders[n].user == a;
  }
}
