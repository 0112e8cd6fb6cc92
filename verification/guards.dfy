/** Properties that interleavings can break, each with the exact guard: an event breaks the property if and only if
    the guard holds before it, and a run keeps the property all along if and only if no event meets its guard. */
module Guards {
  import opened Models
  import opened Transactions
  import opened Handlers
  import opened Bookkeeping
  import opened Conservation
  import opened Lifecycle
  import opened Agreement
  import opened Interleaving

  // ---------- runs ----------

  ghost predicate Always(w: World, es: seq<Event>, good: World -> bool) {
    good(Play(w, es)) && (es == [] || Always(w, es[..|es| - 1], good))
  }

  ghost predicate Never(w: World, es: seq<Event>, bad: (World, Event) -> bool) {
    es == [] || (Never(w, es[..|es| - 1], bad) && !bad(Play(w, es[..|es| - 1]), es[|es| - 1]))
  }

  ghost predicate Exact(good: World -> bool, bad: (World, Event) -> bool) {
    forall w: World, e: Event :: Sane(w) && good(w) ==> (good(Next(w, e)) <==> !bad(w, e))
  }

  lemma {:induction false} AlwaysIffNever(w: World, es: seq<Event>, good: World -> bool, bad: (World, Event) -> bool)
    requires Sane(w) && good(w) && Exact(good, bad)
    ensures Always(w, es, good) <==> Never(w, es, bad)
  {
    if es != [] {
      PlaySane(w, es[..|es| - 1]);
      AlwaysIffNever(w, es[..|es| - 1], good, bad);
      var m, e := Play(w, es[..|es| - 1]), es[|es| - 1];
      if Always(w, es[..|es| - 1], good) {
        assert good(m);
        assert good(Next(m, e)) <==> !bad(m, e);
      }
    }
  }

  // ---------- what a commit writes ----------

  /** The status a commit gives its order, from the event, the row it was computed from, and the battery it checks. */
  function Written(db: Db, e: Event, snap: Order): OrderStatus
    requires IsCommit(e)
  {
    match e
    case CommitDetect(_, review, _, _, _, _) => if review then Disputed else Completed
    case CommitManual(_, _, _, _) => Completed
    case CommitLost(_, _, _) => Lost
    case CommitDamage(_, _) => snap.status
    case CommitOperator(_, action, _) =>
      if action == RefundDeposit then Compensated else if action == RecreateOrder then Renting else snap.status
    case CommitDecision(_, suggested, battery, _) =>
      if suggested == RefundDeposit then Compensated
      else if suggested == RecreateOrder && BatteryAllows(db, battery, snap.battery) then Renting
      else snap.status
  }

  predicate SettlesNow(e: Event) {
    || e.CommitDetect? || e.CommitManual? || e.CommitLost?
    || (e.CommitOperator? && e.action == RefundDeposit) || (e.CommitDecision? && e.suggested == RefundDeposit)
  }

  /** Compensations write columns of the current row; the other commits write the whole row they read. */
  predicate WritesColumns(e: Event) {
    e.CommitOperator? || e.CommitDecision?
  }

  function WrittenDeposit(e: Event, snap: Order): DepositStatus {
    if SettlesNow(e) && (!WritesColumns(e) || Held(snap) > 0) then Settled else snap.deposit
  }

  /** The parts of the written row that the properties below speak of, and the status checks on the row read. */
  ghost predicate Writes(db: Db, db': Db, e: Event, oid: nat, snap: Order)
    requires IsCommit(e)
  {
    && oid < |db.orders| == |db'.orders| && db'.orders == db.orders[oid := db'.orders[oid]]
    && var cur, o := db.orders[oid], db'.orders[oid];
    && SameIdentity(cur, o)
    && o.status == Written(db, e, snap)
    && o.deposit == WrittenDeposit(e, snap)
    && o.reason == (if WritesColumns(e) then cur.reason else snap.reason)
    && (o.status == Abnormal ==> o.comp != CompDone)
    && (e.CommitOperator? ==> snap.status == Abnormal)
    && (e.CommitDamage? ==> snap.status in {Renting, Completed, Disputed})
  }

  lemma ReturnWrites(db: Db, e: Event, oid: nat, snap: Order, bat: Battery)
    requires (e.CommitDetect? || e.CommitManual?) && oid < |db.orders| && SameIdentity(db.orders[oid], snap)
    ensures var r := CommitTx(db, e, oid, snap, bat); r.Some? ==> Writes(db, r.value, e, oid, snap)
  {
  }

  lemma OperatorWrites(db: Db, e: Event, oid: nat, snap: Order)
    requires e.CommitOperator? && oid < |db.orders| && SameIdentity(db.orders[oid], snap)
    ensures var r := OperatorTx(db, oid, snap, e.action, e.now);
            r.Some? ==> Writes(db, r.value, e, oid, snap) && FillsNone(db, r.value)
  {
  }

  lemma DecisionWrites(db: Db, e: Event, oid: nat, snap: Order)
    requires e.CommitDecision? && oid < |db.orders| && SameIdentity(db.orders[oid], snap)
    ensures var r := DecideFrom(db, oid, snap, e.suggested, e.battery, e.now);
            r.Some? ==> Writes(db, r.value, e, oid, snap) && FillsNone(db, r.value)
  {
  }

  lemma ChargeWrites(db: Db, e: Event, oid: nat, snap: Order, bat: Battery)
    requires (e.CommitLost? || e.CommitDamage?) && oid < |db.orders| && SameIdentity(db.orders[oid], snap)
    ensures var r := CommitTx(db, e, oid, snap, bat);
            r.Some? ==> Writes(db, r.value, e, oid, snap) && FillsNone(db, r.value)
  {
  }

  lemma CommitWrites(w: World, e: Event)
    requires Sane(w) && Enabled(w, e) && IsCommit(e)
    ensures Writes(w.db, Next(w, e).db, e, w.procs[e.p].oid, w.procs[e.p].order)
    ensures Next(w, e).procs == w.procs - {e.p}
    ensures e.CommitDetect? || e.CommitManual? || FillsNone(w.db, Next(w, e).db)
  {
    var oid, snap, bat := w.procs[e.p].oid, w.procs[e.p].order, w.procs[e.p].bat;
    if e.CommitDetect? || e.CommitManual? { ReturnWrites(w.db, e, oid, snap, bat); }
    else if e.CommitOperator? { OperatorWrites(w.db, e, oid, snap); }
    else if e.CommitDecision? { DecisionWrites(w.db, e, oid, snap); }
    else { ChargeWrites(w.db, e, oid, snap, bat); }
  }

  /** Marks touch neither orders nor users, and no battery moves or fills a slot. */
  lemma MarkKeepsRest(w: World, e: Event)
    requires Sane(w) && e.SetMark?
    ensures var db := Next(w, e).db;
            && db.orders == w.db.orders && db.users == w.db.users && FillsNone(w.db, db)
            && Next(w, e).procs == w.procs
  {
    hide CommitTx, BookTx, FailTx, Apply, Linked;
  }

  // ---------- at most one active order per user ----------

  predicate OneEach(orders: seq<Order>) {
    forall i, j | 0 <= i < j < |orders| :: Active(orders[i]) && Active(orders[j]) ==> orders[i].user != orders[j].user
  }

  /** No user has two active orders. */
  predicate OnePerUser(w: World) { OneEach(w.db.orders) }

  /** For a user who has an active order: a commit over an inactive order that writes an active status, a rent, or an
      action that reopens an order; or one action that reopens two orders of one user. */
  ghost predicate AddsSecond(w: World, e: Event) {
    && Enabled(w, e)
    && (|| (&& IsCommit(e) && w.procs[e.p].oid < |w.db.orders|
            && var cur := w.db.orders[w.procs[e.p].oid];
            && !Active(cur) && Written(w.db, e, w.procs[e.p].order) in {Pending, Renting, Returning}
            && HasActive(w.db.orders, cur.user))
        || (e.Rent? && HasActive(w.db.orders, w.procs[e.p].u))
        || (e.Atomic? && (exists i: nat :: Reopens(w.db, e.a, i) && HasActive(w.db.orders, w.db.orders[i].user)))
        || (e.Atomic? && ReopensTwo(w.db, e.a)))
  }

  ghost predicate ReopensTwo(db: Db, a: Action) {
    exists i: nat, j: nat :: i < j && Reopens(db, a, i) && Reopens(db, a, j) && db.orders[i].user == db.orders[j].user
  }

  lemma FewerActive(orders: seq<Order>, orders': seq<Order>)
    requires OneEach(orders)
    requires forall i | 0 <= i < |orders'| && Active(orders'[i]) ::
               i < |orders| && Active(orders[i]) && orders'[i].user == orders[i].user
    ensures OneEach(orders')
  {
  }

  lemma OneMoreEachIff(orders: seq<Order>, orders': seq<Order>, oid: nat)
    requires OneEach(orders) && oid < |orders| == |orders'|
    requires orders' == orders[oid := orders'[oid]] && orders'[oid].user == orders[oid].user
    requires !Active(orders[oid]) && Active(orders'[oid])
    ensures OneEach(orders') <==> !HasActive(orders, orders[oid].user)
  {
    var u := orders[oid].user;
    if OneEach(orders') {
      forall j | 0 <= j < |orders| && Active(orders[j]) ensures orders[j].user != u {
        assert j != oid && orders'[j] == orders[j];
        if j < oid { assert orders'[j].user != orders'[oid].user; }
        else { assert orders'[oid].user != orders'[j].user; }
      }
    }
  }

  lemma CommitOnePerUserIff(w: World, e: Event)
    requires Sane(w) && OnePerUser(w) && Enabled(w, e) && IsCommit(e)
    ensures OnePerUser(Next(w, e)) <==> !AddsSecond(w, e)
  {
    hide CommitTx, BookTx, FailTx, MarkTx, Apply, OneEach, HasActive;
    CommitWrites(w, e);
    var orders, orders', oid := w.db.orders, Next(w, e).db.orders, w.procs[e.p].oid;
    if Active(orders'[oid]) && !Active(orders[oid]) {
      OneMoreEachIff(orders, orders', oid);
    } else {
      FewerActive(orders, orders');
    }
  }

  lemma RentEachIff(orders: seq<Order>, o: Order)
    requires OneEach(orders) && Active(o)
    ensures OneEach(orders + [o]) <==> !HasActive(orders, o.user)
  {
    var orders' := orders + [o];
    if OneEach(orders') {
      forall j | 0 <= j < |orders| && Active(orders[j]) ensures orders[j].user != o.user {
        assert orders'[j].user != orders'[|orders|].user;
      }
    }
  }

  lemma BookOnePerUserIff(w: World, e: Event)
    requires Sane(w) && OnePerUser(w) && Enabled(w, e) && (e.Rent? || e.BookAbnormal?)
    ensures OnePerUser(Next(w, e)) <==> !AddsSecond(w, e)
  {
    hide OneEach, HasActive;
    var orders, orders' := w.db.orders, Next(w, e).db.orders;
    var o := orders'[|orders|];
    assert orders' == orders + [o] && o.user == w.procs[e.p].u;
    if e.Rent? {
      RentEachIff(orders, o);
    } else {
      FewerActive(orders, orders');
    }
  }

  lemma ReopenedEachIff(db: Db, db': Db, a: Action)
    requires OneEach(db.orders) && Reopened(db, db', a)
    ensures OneEach(db'.orders) <==>
            !ReopensTwo(db, a) && forall i: nat | Reopens(db, a, i) :: !HasActive(db.orders, db.orders[i].user)
  {
    var orders, orders' := db.orders, db'.orders;
    if OneEach(orders') {
      forall i: nat, j: nat | i < j && Reopens(db, a, i) && Reopens(db, a, j) ensures orders[i].user != orders[j].user {
        assert Active(orders'[i]) && Active(orders'[j]);
      }
      forall i: nat, j | Reopens(db, a, i) && 0 <= j < |orders| && Active(orders[j])
        ensures orders[j].user != orders[i].user
      {
        assert Active(orders'[j]) && Active(orders'[i]);
        if j < i { assert orders'[j].user != orders'[i].user; } else { assert orders'[i].user != orders'[j].user; }
      }
    } else {
      var i, j :| 0 <= i < j < |orders'| && Active(orders'[i]) && Active(orders'[j])
                  && orders'[i].user == orders'[j].user;
      assert Reopens(db, a, i) || Active(orders[i]);
      assert Reopens(db, a, j) || Active(orders[j]);
    }
  }

  lemma AtomicOnePerUserIff(w: World, e: Event)
    requires Sane(w) && OnePerUser(w) && Enabled(w, e) && e.Atomic?
    ensures OnePerUser(Next(w, e)) <==> !AddsSecond(w, e)
  {
    hide CommitTx, BookTx, FailTx, MarkTx, Apply, OneEach, HasActive;
    if MayReopen(e.a) {
      ActionReopened(w.db, e.a);
      ReopenedEachIff(w.db, Next(w, e).db, e.a);
    } else {
      OtherAtomicsOpenNone(w.db, e.a);
      FewerActive(w.db.orders, Next(w, e).db.orders);
    }
  }

  lemma FailOnePerUser(w: World, e: Event)
    requires Sane(w) && OnePerUser(w) && Enabled(w, e) && e.Fail?
    ensures OnePerUser(Next(w, e))
  {
    FewerActive(w.db.orders, Next(w, e).db.orders);
  }

  lemma NextOnePerUserIff(w: World, e: Event)
    requires Sane(w) && OnePerUser(w)
    ensures OnePerUser(Next(w, e)) <==> !AddsSecond(w, e)
  {
    hide CommitTx, BookTx, FailTx, MarkTx, Apply, OneEach;
    if Enabled(w, e) {
      if e.Atomic? { AtomicOnePerUserIff(w, e); }
      else if IsCommit(e) { CommitOnePerUserIff(w, e); }
      else if e.Rent? || e.BookAbnormal? { BookOnePerUserIff(w, e); }
      else if e.Fail? { FailOnePerUser(w, e); }
      else if e.SetMark? { MarkKeepsRest(w, e); }
    }
  }

  /** A run never gives a user two active orders if and only if no event adds a second one. */
  lemma OnePerUserIff(w: World, es: seq<Event>)
    requires Sane(w) && OnePerUser(w)
    ensures Always(w, es, m => OnePerUser(m)) <==> Never(w, es, (m, e) => AddsSecond(m, e))
  {
    forall m: World, e: Event | Sane(m) && OnePerUser(m) ensures OnePerUser(Next(m, e)) <==> !AddsSecond(m, e) {
      NextOnePerUserIff(m, e);
    }
    AlwaysIffNever(w, es, m => OnePerUser(m), (m, e) => AddsSecond(m, e));
  }

  // ---------- what the scan lock adds ----------

  /** The invariant of the scan lock: nobody whose scan has counted no active order has one. It bounds when a rent can
      add a second order: while it holds, never. */
  ghost predicate OneActive(w: World) {
    && OnePerUser(w)
    && (forall p :: p in w.procs && (w.procs[p].Counted? || w.procs[p].HasUser?) ==>
        !HasActive(w.db.orders, w.procs[p].u))
  }

  /** The user has an active order, or a scan that has counted none. */
  ghost predicate Busy(w: World, u: nat) {
    || HasActive(w.db.orders, u)
    || exists p :: p in w.procs && (w.procs[p].Counted? || w.procs[p].HasUser?) && w.procs[p].u == u
  }

  /** A commit over an inactive order that writes an active status, or an action that reopens orders, for a busy user;
      or one action that reopens two orders of one user. */
  ghost predicate Clashes(w: World, e: Event) {
    && Enabled(w, e)
    && (|| (&& IsCommit(e) && w.procs[e.p].oid < |w.db.orders|
            && var cur := w.db.orders[w.procs[e.p].oid];
            !Active(cur) && Written(w.db, e, w.procs[e.p].order) in {Pending, Renting, Returning} && Busy(w, cur.user))
        || (e.Atomic? && (exists i: nat :: Reopens(w.db, e.a, i) && Busy(w, w.db.orders[i].user)))
        || (e.Atomic? && ReopensTwo(w.db, e.a)))
  }

  /** While the invariant holds a rent adds no second order, and whatever does clashes. */
  lemma RentsAddNoSecond(w: World, e: Event)
    requires Sane(w) && OneActive(w)
    ensures e.Rent? ==> !AddsSecond(w, e)
    ensures AddsSecond(w, e) ==> Clashes(w, e)
  {
    hide CommitTx, BookTx, FailTx, MarkTx, Apply;
  }

  lemma OpensNoneKeepsOneActive(w: World, db': Db)
    requires OneActive(w) && OpensNone(w.db, db')
    ensures OneActive(w.(db := db'))
  {
  }

  lemma CommitOneActiveIff(w: World, e: Event)
    requires Sane(w) && OneActive(w) && Enabled(w, e) && IsCommit(e)
    ensures OneActive(Next(w, e)) <==> !Clashes(w, e)
  {
    hide CommitTx, BookTx, FailTx, MarkTx, Apply;
    CommitWrites(w, e);
    var w', oid := Next(w, e), w.procs[e.p].oid;
    if Active(w'.db.orders[oid]) && !Active(w.db.orders[oid]) {
      OneMoreActive(w, w', oid);
    } else {
      forall i | 0 <= i < |w'.db.orders| && Active(w'.db.orders[i])
        ensures Active(w.db.orders[i]) && w'.db.orders[i].user == w.db.orders[i].user {}
    }
  }

  /** One more order becomes active: fine if and only if its user was not busy. */
  lemma OneMoreActive(w: World, w': World, oid: nat)
    requires OneActive(w) && oid < |w.db.orders| == |w'.db.orders|
    requires w'.db.orders == w.db.orders[oid := w'.db.orders[oid]] && w'.db.orders[oid].user == w.db.orders[oid].user
    requires !Active(w.db.orders[oid]) && Active(w'.db.orders[oid])
    requires forall p :: p in w'.procs ==> p in w.procs && w'.procs[p] == w.procs[p]
    requires forall p :: p in w.procs && !w.procs[p].HasOrder? ==> p in w'.procs
    ensures OneActive(w') <==> !Busy(w, w.db.orders[oid].user)
  {
    var u := w.db.orders[oid].user;
    assert HasActive(w'.db.orders, u);
    if HasActive(w.db.orders, u) {
      var j :| 0 <= j < |w.db.orders| && w.db.orders[j].user == u && Active(w.db.orders[j]);
      assert j != oid && w'.db.orders[j] == w.db.orders[j];
    }
    if !Busy(w, u) {
      forall p | p in w'.procs && (w'.procs[p].Counted? || w'.procs[p].HasUser?)
        ensures !HasActive(w'.db.orders, w'.procs[p].u)
      {
        assert w.procs[p].u != u && !HasActive(w.db.orders, w.procs[p].u);
      }
    }
  }

  lemma AtomicOneActiveIff(w: World, e: Event)
    requires Sane(w) && OneActive(w) && Enabled(w, e) && e.Atomic?
    ensures OneActive(Next(w, e)) <==> !Clashes(w, e)
  {
    hide CommitTx, BookTx, FailTx, MarkTx, Apply;
    if MayReopen(e.a) {
      ActionReopened(w.db, e.a);
      if OneActive(Next(w, e)) { ReopenedNoClash(w, e); }
      if !Clashes(w, e) { ReopenedOneActive(w, e); }
    } else {
      OtherAtomicsOpenNone(w.db, e.a);
      OpensNoneKeepsOneActive(w, Next(w, e).db);
    }
  }

  lemma ReopenedNoClash(w: World, e: Event)
    requires OneActive(w) && Enabled(w, e) && e.Atomic? && Reopened(w.db, Next(w, e).db, e.a) && OneActive(Next(w, e))
    ensures !Clashes(w, e)
  {
    hide CommitTx, BookTx, FailTx, MarkTx, Apply;
    var w' := Next(w, e);
    forall i: nat | Reopens(w.db, e.a, i) ensures !Busy(w, w.db.orders[i].user) {
      var u := w.db.orders[i].user;
      assert Active(w'.db.orders[i]) && w'.db.orders[i].user == u;
      forall j | 0 <= j < |w.db.orders| && Active(w.db.orders[j]) ensures w.db.orders[j].user != u {
        assert Active(w'.db.orders[j]) && w'.db.orders[j].user == w.db.orders[j].user;
        if i < j { assert w'.db.orders[i].user != w'.db.orders[j].user; }
        else { assert w'.db.orders[j].user != w'.db.orders[i].user; }
      }
      assert HasActive(w'.db.orders, u);
    }
    forall i: nat, j: nat | i < j && Reopens(w.db, e.a, i) && Reopens(w.db, e.a, j)
      ensures w.db.orders[i].user != w.db.orders[j].user
    {
      assert Active(w'.db.orders[i]) && Active(w'.db.orders[j]);
    }
  }

  lemma ReopenedOneActive(w: World, e: Event)
    requires OneActive(w) && Enabled(w, e) && e.Atomic? && Reopened(w.db, Next(w, e).db, e.a) && !Clashes(w, e)
    ensures OneActive(Next(w, e))
  {
    hide CommitTx, BookTx, FailTx, MarkTx, Apply;
    var w' := Next(w, e);
    forall i, j | 0 <= i < j < |w'.db.orders| && Active(w'.db.orders[i]) && Active(w'.db.orders[j])
      ensures w'.db.orders[i].user != w'.db.orders[j].user
    {
      assert Reopens(w.db, e.a, i) || Active(w.db.orders[i]);
      assert Reopens(w.db, e.a, j) || Active(w.db.orders[j]);
    }
    forall p | p in w'.procs && (w'.procs[p].Counted? || w'.procs[p].HasUser?)
      ensures !HasActive(w'.db.orders, w'.procs[p].u)
    {
      forall i | 0 <= i < |w'.db.orders| && Active(w'.db.orders[i]) ensures w'.db.orders[i].user != w.procs[p].u {
        assert Reopens(w.db, e.a, i) || Active(w.db.orders[i]);
      }
    }
  }

  lemma OtherAtomicsOpenNone(db: Db, a: Action)
    requires !a.DoScan? && !MayReopen(a)
    ensures OpensNone(db, Apply(db, a))
  {
    if !a.DoDetect? && !a.DoManual? && !a.DoSlotEntry? && !a.DoAssign? { QuietActions(db, a); }
  }

  lemma BookOneActive(w: World, e: Event)
    requires Sane(w) && OneActive(w) && Enabled(w, e) && (e.Rent? || e.BookAbnormal?)
    ensures OneActive(Next(w, e))
  {
    var w', u, n := Next(w, e), w.procs[e.p].u, |w.db.orders|;
    assert w'.db.orders == w.db.orders + [w'.db.orders[n]] && w'.db.orders[n].user == u;
    forall p | p in w'.procs && (w'.procs[p].Counted? || w'.procs[p].HasUser?)
      ensures !HasActive(w'.db.orders, w'.procs[p].u)
    {
      assert p != e.p && w.held[w.procs[p].u] == p && w.held[u] == e.p;
      assert !HasActive(w.db.orders, w.procs[p].u);
    }
  }

  lemma FailOneActive(w: World, e: Event)
    requires Sane(w) && OneActive(w) && Enabled(w, e) && e.Fail?
    ensures OneActive(Next(w, e))
  {
    var w', oid := Next(w, e), w.procs[e.p].oid;
    forall i | 0 <= i < |w'.db.orders| && Active(w'.db.orders[i]) ensures w'.db.orders[i] == w.db.orders[i] {}
  }

  lemma NextOneActiveIff(w: World, e: Event)
    requires Sane(w) && OneActive(w)
    ensures OneActive(Next(w, e)) <==> !Clashes(w, e)
  {
    hide CommitTx, BookTx, FailTx, MarkTx, Apply;
    if Enabled(w, e) {
      if e.Atomic? { AtomicOneActiveIff(w, e); }
      else if IsCommit(e) { CommitOneActiveIff(w, e); }
      else if e.Rent? || e.BookAbnormal? { BookOneActive(w, e); }
      else if e.Fail? { FailOneActive(w, e); }
      else if e.SetMark? { MarkKeepsRest(w, e); }
    }
  }

  /** The invariant lasts all along a run if and only if no event clashes; then no event adds a second active order. */
  lemma ScanInvariantIff(w: World, es: seq<Event>)
    requires Sane(w) && OneActive(w)
    ensures Always(w, es, m => OneActive(m)) <==> Never(w, es, (m, e) => Clashes(m, e))
  {
    forall m: World, e: Event | Sane(m) && OneActive(m) ensures OneActive(Next(m, e)) <==> !Clashes(m, e) {
      NextOneActiveIff(m, e);
    }
    AlwaysIffNever(w, es, m => OneActive(m), (m, e) => Clashes(m, e));
  }

  // ---------- disputed orders ----------

  /** Order oid is disputed with its deposit held. */
  predicate HeldDisputed(w: World, oid: nat) {
    oid < |w.db.orders| && w.db.orders[oid].status == Disputed && Held(w.db.orders[oid]) > 0
  }

  /** A commit that leaves such an order be: MarkDamage or an unsettling decision, computed from a row that was itself
      disputed with its deposit held. */
  predicate LeavesDisputed(db: Db, e: Event, snap: Order) {
    && snap.status == Disputed && snap.deposit == Frozen
    && (|| e.CommitDamage?
        || (e.CommitDecision? && e.suggested != RefundDeposit
            && !(e.suggested == RecreateOrder && BatteryAllows(db, e.battery, snap.battery))))
  }

  /** Any other commit on the order, a failure report on it, and MarkLost. */
  ghost predicate Unsettles(w: World, e: Event, oid: nat) {
    && Enabled(w, e)
    && (|| (IsCommit(e) && w.procs[e.p].oid == oid && !LeavesDisputed(w.db, e, w.procs[e.p].order))
        || (e.Fail? && w.procs[e.p].oid == oid)
        || (e.Atomic? && e.a.DoLost? && e.a.oid == oid))
  }

  lemma CommitDisputedIff(w: World, e: Event, oid: nat)
    requires Sane(w) && HeldDisputed(w, oid) && Enabled(w, e) && IsCommit(e)
    ensures HeldDisputed(Next(w, e), oid) <==> !Unsettles(w, e, oid)
  {
    hide CommitTx, BookTx, FailTx, MarkTx, Apply;
    CommitWrites(w, e);
  }

  lemma AtomicDisputedIff(w: World, e: Event, oid: nat)
    requires Sane(w) && HeldDisputed(w, oid) && Enabled(w, e) && e.Atomic?
    ensures HeldDisputed(Next(w, e), oid) <==> !Unsettles(w, e, oid)
  {
    ApplySteps(w.db, e.a);
    assert Lives(w.db.orders[oid], Apply(w.db, e.a).orders[oid], LostBy(e.a) == Some(oid));
    assert OrderLinked(w.db, w.db.orders[oid]);
  }

  lemma NextDisputedIff(w: World, e: Event, oid: nat)
    requires Sane(w) && HeldDisputed(w, oid)
    ensures HeldDisputed(Next(w, e), oid) <==> !Unsettles(w, e, oid)
  {
    hide CommitTx, Apply;
    if Enabled(w, e) {
      if e.Atomic? { AtomicDisputedIff(w, e, oid); }
      else if IsCommit(e) { CommitDisputedIff(w, e, oid); }
      else if e.SetMark? { MarkKeepsRest(w, e); }
    }
  }

  /** Once disputed with its deposit held, an order stays so all along a run if and only if no event unsettles it. */
  lemma DisputedStaysIff(w: World, es: seq<Event>, oid: nat)
    requires Sane(w) && HeldDisputed(w, oid)
    ensures Always(w, es, m => HeldDisputed(m, oid)) <==> Never(w, es, (m, e) => Unsettles(m, e, oid))
  {
    forall m: World, e: Event | Sane(m) && HeldDisputed(m, oid)
      ensures HeldDisputed(Next(m, e), oid) <==> !Unsettles(m, e, oid)
    {
      NextDisputedIff(m, e, oid);
    }
    AlwaysIffNever(w, es, m => HeldDisputed(m, oid), (m, e) => Unsettles(m, e, oid));
  }

  // ---------- status and deposit ----------

  /** Every order's status agrees with its deposit, in the tables and in the rows requests have read. */
  ghost predicate OrdersOk(w: World) {
    && (forall i | 0 <= i < |w.db.orders| :: OrderOk(w.db.orders[i]))
    && (forall p :: p in w.procs && w.procs[p].HasOrder? ==> OrderOk(w.procs[p].order))
  }

  /** A failure report on a settled order; a decision that sends a settled row back to renting; a review of an abnormal
      row whose order has lost its reason since. */
  ghost predicate Spoils(w: World, e: Event) {
    && Enabled(w, e) && (IsCommit(e) || e.Fail?) && w.procs[e.p].oid < |w.db.orders|
    && var cur, snap := w.db.orders[w.procs[e.p].oid], w.procs[e.p].order;
    || (e.Fail? && cur.deposit == Settled)
    || (e.CommitDecision? && e.suggested == RecreateOrder && BatteryAllows(w.db, e.battery, snap.battery)
        && snap.deposit == Settled)
    || (WritesColumns(e) && Written(w.db, e, snap) == Abnormal && cur.reason == NoReason)
  }

  lemma CommitOrdersOkIff(w: World, e: Event)
    requires Sane(w) && OrdersOk(w) && Enabled(w, e) && IsCommit(e)
    ensures OrdersOk(Next(w, e)) <==> !Spoils(w, e)
  {
    hide CommitTx, BookTx, FailTx, MarkTx, Apply;
    CommitWrites(w, e);
    var oid, w' := w.procs[e.p].oid, Next(w, e);
    assert OrderOk(w.procs[e.p].order) && OrderOk(w.db.orders[oid]);
    CommitRowOkIff(w, e);
    forall i | 0 <= i < |w'.db.orders| && i != oid ensures OrderOk(w'.db.orders[i]) {
      assert w'.db.orders[i] == w.db.orders[i];
    }
  }

  lemma CommitRowOkIff(w: World, e: Event)
    requires Sane(w) && Enabled(w, e) && IsCommit(e) && OrderOk(w.procs[e.p].order)
    requires w.procs[e.p].oid < |w.db.orders| && Writes(w.db, Next(w, e).db, e, w.procs[e.p].oid, w.procs[e.p].order)
    ensures OrderOk(Next(w, e).db.orders[w.procs[e.p].oid]) <==> !Spoils(w, e)
  {
    hide CommitTx, BookTx, FailTx, MarkTx, Apply;
  }

  lemma FailedRowOkIff(o: Order, reason: Reason)
    requires OrderOk(o) && reason != NoReason
    ensures OrderOk(ToAbnormal(o, reason)) <==> o.deposit != Settled
  {
  }

  lemma FailOrdersOkIff(w: World, e: Event)
    requires Sane(w) && OrdersOk(w) && Enabled(w, e) && e.Fail?
    ensures OrdersOk(Next(w, e)) <==> !Spoils(w, e)
  {
    var oid, w' := w.procs[e.p].oid, Next(w, e);
    var failed := ToAbnormal(w.db.orders[oid], FailureReason(e.reason));
    assert w'.db.orders == w.db.orders[oid := failed] && w'.procs == w.procs - {e.p};
    FailedRowOkIff(w.db.orders[oid], FailureReason(e.reason));
    if OrderOk(failed) {
      forall i | 0 <= i < |w'.db.orders| ensures OrderOk(w'.db.orders[i]) {
        if i != oid { assert w'.db.orders[i] == w.db.orders[i]; }
      }
    } else {
      assert w'.db.orders[oid] == failed;
    }
  }

  lemma AtomicOrdersOk(w: World, e: Event)
    requires Sane(w) && OrdersOk(w) && Enabled(w, e) && e.Atomic?
    ensures OrdersOk(Next(w, e))
  {
    hide CommitTx, BookTx, FailTx, MarkTx, Apply;
    ApplySteps(w.db, e.a);
    StepHealthy(w.db, Apply(w.db, e.a), LostBy(e.a));
  }

  lemma BookOrdersOk(w: World, e: Event)
    requires Sane(w) && OrdersOk(w) && Enabled(w, e) && (e.Rent? || e.BookAbnormal?)
    ensures OrdersOk(Next(w, e))
  {
    hide CommitTx, FailTx, MarkTx, Apply, DefaultRule;
    var w', n := Next(w, e), |w.db.orders|;
    assert w'.db.orders == w.db.orders + [w'.db.orders[n]] && OrderOk(w'.db.orders[n]);
  }

  lemma NextOrdersOkIff(w: World, e: Event)
    requires Sane(w) && OrdersOk(w)
    ensures OrdersOk(Next(w, e)) <==> !Spoils(w, e)
  {
    hide CommitTx, BookTx, FailTx, MarkTx, Apply;
    if Enabled(w, e) {
      if e.Atomic? { AtomicOrdersOk(w, e); }
      else if IsCommit(e) { CommitOrdersOkIff(w, e); }
      else if e.Rent? || e.BookAbnormal? { BookOrdersOk(w, e); }
      else if e.Fail? { FailOrdersOkIff(w, e); }
      else if e.SetMark? { MarkKeepsRest(w, e); }
    }
  }

  /** Renting and abnormal orders keep their positive deposit frozen, and closed ones hold none, all along a run if and
      only if no event spoils a row. */
  lemma OrdersStayOkIff(w: World, es: seq<Event>)
    requires Sane(w) && OrdersOk(w)
    ensures Always(w, es, m => OrdersOk(m)) <==> Never(w, es, (m, e) => Spoils(m, e))
  {
    forall m: World, e: Event | Sane(m) && OrdersOk(m) ensures OrdersOk(Next(m, e)) <==> !Spoils(m, e) {
      NextOrdersOkIff(m, e);
    }
    AlwaysIffNever(w, es, m => OrdersOk(m), (m, e) => Spoils(m, e));
  }

  // ---------- where the batteries are ----------

  predicate RentedByOther(db: Db, b: nat, oid: nat) {
    exists i | 0 <= i < |db.orders| :: i != oid && db.orders[i].status == Renting && db.orders[i].battery == b
  }

  /** The slot a return puts its battery into. */
  function Target(db: Db, e: Event): nat
    requires e.CommitDetect? || (e.CommitManual? && FindSlot(db.slots, e.cab, e.slotNo).Some?)
  {
    if e.CommitDetect? then e.k else FindSlot(db.slots, e.cab, e.slotNo).value
  }

  /** A return of a battery that another order rents or another occupied slot holds; another commit that sets an order
      renting again while its battery is not at large; a serial action that does not fit. */
  ghost predicate Misplaces(w: World, e: Event) {
    && Enabled(w, e)
    && (|| (&& (e.CommitDetect? || e.CommitManual?)
            && var oid, b := w.procs[e.p].oid, w.procs[e.p].order.battery;
            RentedByOther(w.db, b, oid) || HousedElsewhere(w.db, b, Target(w.db, e)))
        || (&& IsCommit(e) && !e.CommitDetect? && !e.CommitManual? && w.procs[e.p].oid < |w.db.orders|
            && var cur := w.db.orders[w.procs[e.p].oid];
            cur.status != Renting && Written(w.db, e, w.procs[e.p].order) == Renting && !AtLarge(w.db, cur.battery))
        || (e.Atomic? && !Fits(w.db, e.a)))
  }

  /** Order oid stops renting and its battery goes into slot k. */
  lemma ReturnedAgreesIff(db: Db, db': Db, oid: nat, b: nat, k: nat)
    requires Agree(db) && oid < |db.orders| == |db'.orders| && b < |db.batteries| == |db'.batteries|
    requires k < |db.slots| == |db'.slots| && db.orders[oid].battery == b
    requires db'.orders == db.orders[oid := db'.orders[oid]] && db'.orders[oid].status != Renting
    requires db'.batteries == db.batteries[b := db'.batteries[b]] && db'.batteries[b].slot == Some(k)
    requires db'.slots == db.slots[k := db'.slots[k]] && db'.slots[k].battery == Some(b)
    ensures Agree(db') <==> !RentedByOther(db, b, oid) && !HousedElsewhere(db, b, k)
  {
    if HousedElsewhere(db, b, k) {
      var j: nat :| j < |db.slots| && j != k && Houses(db.slots[j]) && db.slots[j].battery.value == b;
      assert db'.slots[j] == db.slots[j] && db'.batteries[b].slot == Some(k);
    }
    if RentedByOther(db, b, oid) {
      var i :| 0 <= i < |db.orders| && i != oid && db.orders[i].status == Renting && db.orders[i].battery == b;
      assert db'.orders[i].status == Renting && db'.batteries[b].slot == Some(k);
    }
  }

  lemma ReturnAgreesIff(w: World, e: Event)
    requires Sane(w) && Agree(w.db) && Enabled(w, e) && (e.CommitDetect? || e.CommitManual?)
    ensures Agree(Next(w, e).db) <==> !Misplaces(w, e)
  {
    CommitWrites(w, e);
    ReturnedAgreesIff(w.db, Next(w, e).db, w.procs[e.p].oid, w.procs[e.p].order.battery, Target(w.db, e));
  }

  lemma OtherCommitAgreesIff(w: World, e: Event)
    requires Sane(w) && Agree(w.db) && Enabled(w, e) && IsCommit(e) && !e.CommitDetect? && !e.CommitManual?
    ensures Agree(Next(w, e).db) <==> !Misplaces(w, e)
  {
    hide CommitTx, BookTx, FailTx, MarkTx, Apply;
    CommitWrites(w, e);
    var db, db', oid := w.db, Next(w, e).db, w.procs[e.p].oid;
    if db.orders[oid].status != Renting {
      RentingAgainAgreesIff(db, db', oid);
    } else {
      StillRentingAgrees(db, db', oid);
    }
  }

  lemma StillRentingAgrees(db: Db, db': Db, oid: nat)
    requires Agree(db) && FillsNone(db, db') && oid < |db.orders| == |db'.orders| && db.orders[oid].status == Renting
    requires db'.orders == db.orders[oid := db'.orders[oid]] && db'.orders[oid].battery == db.orders[oid].battery
    ensures Agree(db')
  {
  }

  lemma FailAgrees(w: World, e: Event)
    requires Sane(w) && Agree(w.db) && Enabled(w, e) && e.Fail?
    ensures Agree(Next(w, e).db)
  {
  }

  lemma AbnormalAgrees(db: Db, u: nat, snap: User, k: nat, reason: Reason, now: int)
    requires Agree(db)
    ensures Agree(OrKeep(AbnormalTx(db, u, snap, k, reason, now), db))
  {
    var db' := OrKeep(AbnormalTx(db, u, snap, k, reason, now), db);
    forall i | 0 <= i < |db'.orders| && db'.orders[i].status == Renting
      ensures i < |db.orders| && db'.orders[i] == db.orders[i] {}
  }

  lemma BookAgrees(w: World, e: Event)
    requires Sane(w) && Agree(w.db) && Enabled(w, e) && (e.Rent? || e.BookAbnormal?)
    ensures Agree(Next(w, e).db)
  {
    hide CommitTx, FailTx, Apply, RentTx, AbnormalTx;
    var db, u, snap := w.db, w.procs[e.p].u, w.procs[e.p].snap;
    if e.Rent? {
      RentAgrees(db, u, snap, e.k, e.now);
    } else {
      AbnormalAgrees(db, u, snap, e.k, e.reason, e.now);
    }
  }

  lemma NextAgreesIff(w: World, e: Event)
    requires Sane(w) && Agree(w.db)
    ensures Agree(Next(w, e).db) <==> !Misplaces(w, e)
  {
    hide CommitTx, BookTx, FailTx, MarkTx, Apply;
    if Enabled(w, e) {
      if e.Atomic? { ApplyAgreesIff(w.db, e.a); }
      else if e.CommitDetect? || e.CommitManual? { ReturnAgreesIff(w, e); }
      else if IsCommit(e) { OtherCommitAgreesIff(w, e); }
      else if e.Rent? || e.BookAbnormal? { BookAgrees(w, e); }
      else if e.Fail? { FailAgrees(w, e); }
      else if e.SetMark? { MarkKeepsRest(w, e); QuietAgrees(w.db, Next(w, e).db); }
    }
  }

  /** Orders, batteries and slots agree all along an interleaved run if and only if no event misplaces a battery. */
  lemma InterleavedAgreesIff(w: World, es: seq<Event>)
    requires Sane(w) && Agree(w.db)
    ensures Always(w, es, (m: World) => Agree(m.db)) <==> Never(w, es, (m, e) => Misplaces(m, e))
  {
    forall m: World, e: Event | Sane(m) && Agree(m.db) ensures Agree(Next(m, e).db) <==> !Misplaces(m, e) {
      NextAgreesIff(m, e);
    }
    AlwaysIffNever(w, es, (m: World) => Agree(m.db), (m, e) => Misplaces(m, e));
  }

  // ---------- each order's deposit, settled once ----------

  /** What was deducted and released for the order, and what is still held, is what was frozen. */
  predicate Balanced(w: World, oid: nat) {
    oid < |w.db.orders| ==> Deposit(w.db, oid) == 0
  }

  /** A commit on the order from a row that shows another deposit held than there is. */
  ghost predicate SettlesStale(w: World, e: Event, oid: nat) {
    && Enabled(w, e) && IsCommit(e) && w.procs[e.p].oid == oid < |w.db.orders|
    && Held(w.procs[e.p].order) != Held(w.db.orders[oid])
  }

  lemma NextBalancedIff(w: World, e: Event, oid: nat)
    requires Sane(w) && Balanced(w, oid)
    ensures Balanced(Next(w, e), oid) <==> !SettlesStale(w, e, oid)
  {
    hide CommitTx, BookTx, FailTx, MarkTx, Apply, Deposit;
    if Enabled(w, e) {
      if e.Atomic? { AttemptStill(w.db, e.a); AtomicBalanced(w, e, oid); }
      else if IsCommit(e) { CommitMoves(w.db, e, w.procs[e.p].oid, w.procs[e.p].order, w.procs[e.p].bat); }
      else if e.Rent? || e.BookAbnormal? { BookMoves(w.db, e, w.procs[e.p].u, w.procs[e.p].snap); }
      else if e.Fail? { FailKeeps(w.db, w.procs[e.p].oid, w.procs[e.p].order, e.reason); }
      else if e.SetMark? { MarkKeeps(w.db, e.m); }
    }
  }

  lemma AtomicBalanced(w: World, e: Event, oid: nat)
    requires Balanced(w, oid) && Enabled(w, e) && e.Atomic? && Still(w.db, Apply(w.db, e.a))
    ensures Balanced(Next(w, e), oid)
  {
    hide CommitTx, BookTx, FailTx, MarkTx, Apply, Deposit;
  }

  /** An order's deposit is settled exactly, all along a run, if and only if no commit on the order is computed from a
      row that shows another deposit held. */
  lemma DepositBalancedIff(w: World, es: seq<Event>, oid: nat)
    requires Sane(w) && Balanced(w, oid)
    ensures Always(w, es, m => Balanced(m, oid)) <==> Never(w, es, (m, e) => SettlesStale(m, e, oid))
  {
    forall m: World, e: Event | Sane(m) && Balanced(m, oid)
      ensures Balanced(Next(m, e), oid) <==> !SettlesStale(m, e, oid)
    {
      NextBalancedIff(m, e, oid);
    }
    AlwaysIffNever(w, es, m => Balanced(m, oid), (m, e) => SettlesStale(m, e, oid));
  }

  // ---------- each user's balance ----------

  /** The balance is the user's credits less the deposits ever frozen. */
  predicate CashOk(w: World, v: nat) {
    v < |w.db.users| ==> Cash(w.db, v) == 0
  }

  /** The user's scan books a deposit from a balance that has changed since it was read. */
  ghost predicate LosesCredit(w: World, e: Event, v: nat) {
    && Enabled(w, e) && (e.Rent? || e.BookAbnormal?) && w.procs[e.p].u == v < |w.db.users|
    && DepositDue(w.db, w.procs[e.p].snap) > 0 && w.procs[e.p].snap.balance != w.db.users[v].balance
  }

  lemma NextCashIff(w: World, e: Event, v: nat)
    requires Sane(w) && CashOk(w, v)
    ensures CashOk(Next(w, e), v) <==> !LosesCredit(w, e, v)
  {
    hide CommitTx, BookTx, FailTx, MarkTx, Apply, Cash;
    if Enabled(w, e) {
      if e.Atomic? { AttemptStill(w.db, e.a); }
      else if IsCommit(e) { CommitMoves(w.db, e, w.procs[e.p].oid, w.procs[e.p].order, w.procs[e.p].bat); }
      else if e.Rent? || e.BookAbnormal? { BookMoves(w.db, e, w.procs[e.p].u, w.procs[e.p].snap); }
      else if e.Fail? { FailKeeps(w.db, w.procs[e.p].oid, w.procs[e.p].order, e.reason); }
      else if e.SetMark? { MarkKeeps(w.db, e.m); }
    }
  }

  /** A user's balance is right all along a run, no credit lost, if and only if no scan of the user books a deposit
      from a balance that has changed since it was read. */
  lemma CashOkIff(w: World, es: seq<Event>, v: nat)
    requires Sane(w) && CashOk(w, v)
    ensures Always(w, es, m => CashOk(m, v)) <==> Never(w, es, (m, e) => LosesCredit(m, e, v))
  {
    forall m: World, e: Event | Sane(m) && CashOk(m, v) ensures CashOk(Next(m, e), v) <==> !LosesCredit(m, e, v) {
      NextCashIff(m, e, v);
    }
    AlwaysIffNever(w, es, m => CashOk(m, v), (m, e) => LosesCredit(m, e, v));
  }

  // ---------- a deposit only moves on ----------

  /** A commit on the order that writes a deposit status below the current one. */
  ghost predicate TurnsBack(w: World, e: Event, oid: nat) {
    && Enabled(w, e) && IsCommit(e) && w.procs[e.p].oid == oid < |w.db.orders|
    && Rank(WrittenDeposit(e, w.procs[e.p].order)) < Rank(w.db.orders[oid].deposit)
  }

  lemma NextMovesOnIff(w: World, e: Event, oid: nat)
    requires Sane(w) && oid < |w.db.orders|
    ensures oid < |Next(w, e).db.orders|
    ensures Rank(w.db.orders[oid].deposit) <= Rank(Next(w, e).db.orders[oid].deposit) <==> !TurnsBack(w, e, oid)
  {
    if Enabled(w, e) {
      if e.Atomic? { AtomicMovesOn(w, e, oid); }
      else if IsCommit(e) { CommitMovesOnIff(w, e, oid); }
      else if e.SetMark? { MarkKeepsRest(w, e); }
    }
  }

  lemma AtomicMovesOn(w: World, e: Event, oid: nat)
    requires Sane(w) && oid < |w.db.orders| && Enabled(w, e) && e.Atomic?
    ensures oid < |Next(w, e).db.orders|
    ensures Rank(w.db.orders[oid].deposit) <= Rank(Next(w, e).db.orders[oid].deposit)
  {
    hide CommitTx, BookTx, FailTx, MarkTx, Apply;
    ApplySteps(w.db, e.a);
    assert Lives(w.db.orders[oid], Apply(w.db, e.a).orders[oid], LostBy(e.a) == Some(oid));
  }

  lemma CommitMovesOnIff(w: World, e: Event, oid: nat)
    requires Sane(w) && oid < |w.db.orders| && Enabled(w, e) && IsCommit(e)
    ensures oid < |Next(w, e).db.orders|
    ensures Rank(w.db.orders[oid].deposit) <= Rank(Next(w, e).db.orders[oid].deposit) <==> !TurnsBack(w, e, oid)
  {
    hide CommitTx, BookTx, FailTx, MarkTx, Apply;
    CommitWrites(w, e);
  }

  /** Each event of the run leaves the order's deposit status where it is or moves it on. */
  ghost predicate MovesOnAlong(w: World, es: seq<Event>, oid: nat) {
    es == []
    || (&& MovesOnAlong(w, es[..|es| - 1], oid)
        && var m, m' := Play(w, es[..|es| - 1]), Play(w, es);
        && oid < |m.db.orders| && oid < |m'.db.orders|
        && Rank(m.db.orders[oid].deposit) <= Rank(m'.db.orders[oid].deposit))
  }

  /** Over any run an order's deposit status never goes back if and only if no commit on the order writes a lower
      one. */
  lemma {:induction false} DepositMovesOnIff(w: World, es: seq<Event>, oid: nat)
    requires Sane(w) && oid < |w.db.orders|
    ensures oid < |Play(w, es).db.orders|
    ensures MovesOnAlong(w, es, oid) <==> Never(w, es, (m, e) => TurnsBack(m, e, oid))
    ensures MovesOnAlong(w, es, oid) ==> Rank(w.db.orders[oid].deposit) <= Rank(Play(w, es).db.orders[oid].deposit)
  {
    if es != [] {
      var init, e := es[..|es| - 1], es[|es| - 1];
      PlaySane(w, init);
      DepositMovesOnIff(w, init, oid);
      NextMovesOnIff(Play(w, init), e, oid);
    }
  }
}
