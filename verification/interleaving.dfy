/** Scans and order handlers split into their separate reads and commits, interleaved in any way.
    The `user_rent:` lock is the only lock modelled: the others only remove interleavings. */
module Interleaving {
  import opened Models
  import opened Transactions
  import opened Handlers
  import opened Scanning
  import opened Bookkeeping
  import opened Conservation
  import opened Lifecycle

  datatype Proc =
    | Waiting(u: nat)
    | Locked(u: nat)
    | Counted(u: nat)
    | HasUser(u: nat, snap: User, credited: int)
    | Booked(u: nat)
    | HasOrder(oid: nat, order: Order, bat: Battery, deciding: bool)

  /** `held` maps a user to the request holding that user's scan lock. */
  datatype World = World(db: Db, procs: map<nat, Proc>, held: map<nat, nat>)

  datatype Event =
    | Start(p: nat, u: nat)
    | Lock(p: nat)
    | Count(p: nat)
    | ReadUser(p: nat)
    | Rent(p: nat, k: nat, now: int)
    | BookAbnormal(p: nat, k: nat, reason: Reason, now: int)
    | Release(p: nat)
    | ReadOrder(p: nat, oid: nat)
    | CommitDetect(p: nat, review: bool, cab: nat, k: nat, soc: int, now: int)
    | CommitManual(p: nat, cab: nat, slotNo: nat, now: int)
    | CommitLost(p: nat, fee: int, now: int)
    | CommitDamage(p: nat, fee: int)
    | CommitOperator(p: nat, action: CompAction, now: int)
    | ReadAgain(p: nat)
    | CommitDecision(p: nat, suggested: CompAction, battery: Option<nat>, now: int)
    | Fail(p: nat, reason: Reason)
    | SetMark(m: Mark)
    | Atomic(a: Action)

  /** What handlers set on a cabinet or a slot before the rest of their work: a scan finds a cabinet stale or a battery
      unfit, an unlock is confirmed, a cabinet is back. */
  datatype Mark = GoOffline(cab: nat) | GoOnline(cab: nat, now: int) | GoFaulty(k: nat) | GoEmpty(k: nat)

  predicate IsCommit(e: Event) {
    e.CommitDetect? || e.CommitManual? || e.CommitLost? || e.CommitDamage? || e.CommitOperator? || e.CommitDecision?
  }

  /** The transaction an order handler commits from the row it read last. */
  function CommitTx(db: Db, e: Event, oid: nat, snap: Order, bat: Battery): Option<Db>
    requires IsCommit(e)
  {
    match e
    case CommitDetect(_, review, cab, k, soc, now) =>
      if snap.status != Renting then None else DetectTx(db, oid, snap, review, cab, k, snap.battery, soc, now)
    case CommitManual(_, cab, slotNo, now) => ManualTx(db, oid, snap, bat, cab, slotNo, now)
    case CommitLost(_, fee, now) => LostTx(db, oid, snap, fee, now)
    case CommitDamage(_, fee) => DamageTx(db, oid, snap, fee)
    case CommitOperator(_, action, now) => OperatorTx(db, oid, snap, action, now)
    case CommitDecision(_, suggested, battery, now) => DecideFrom(db, oid, snap, suggested, battery, now)
  }

  /** ReportUnlockFailure checks the row it read and then rewrites columns of the row as it is by now; so does the loop
      of a failed unlock report. */
  function FailTx(db: Db, oid: nat, snap: Order, reason: Reason): Option<Db> {
    if oid >= |db.orders| || snap.status !in {Pending, Renting} then None
    else Some(db.(orders := db.orders[oid := ToAbnormal(db.orders[oid], FailureReason(reason))]))
  }

  function MarkTx(db: Db, m: Mark): Db {
    match m
    case GoOffline(cab) =>
      if cab < |db.cabinets| then SetCabinet(db, cab, db.cabinets[cab].(status := Offline)) else db
    case GoOnline(cab, now) => SetCabinet(db, cab, Cabinet(Online, Some(now)))
    case GoFaulty(k) => if k < |db.slots| then SetSlot(db, k, db.slots[k].(status := Fault)) else db
    case GoEmpty(k) => if k < |db.slots| then ConfirmUnlock(db, k) else db
  }

  function BookTx(db: Db, e: Event, u: nat, snap: User): Option<Db>
    requires e.Rent? || e.BookAbnormal?
  {
    if e.Rent? then RentTx(db, u, snap, e.k, e.now) else AbnormalTx(db, u, snap, e.k, e.reason, e.now)
  }

  predicate Enabled(w: World, e: Event) {
    match e
    case Start(p, u) => p !in w.procs && u < |w.db.users|
    case Lock(p) => p in w.procs && w.procs[p].Waiting? && w.procs[p].u !in w.held
    case Count(p) => p in w.procs && w.procs[p].Locked? && !HasActive(w.db.orders, w.procs[p].u)
    case ReadUser(p) => p in w.procs && (w.procs[p].Counted? || w.procs[p].HasUser?) && w.procs[p].u < |w.db.users|
    case Rent(p, k, now) => p in w.procs && w.procs[p].HasUser? && BookTx(w.db, e, w.procs[p].u, w.procs[p].snap).Some?
    case BookAbnormal(p, k, reason, now) =>
      reason != NoReason && p in w.procs && w.procs[p].HasUser? && BookTx(w.db, e, w.procs[p].u, w.procs[p].snap).Some?
    case Release(p) => p in w.procs && InScan(w.procs[p])
    case ReadOrder(p, oid) => p !in w.procs && oid < |w.db.orders| && w.db.orders[oid].battery < |w.db.batteries|
    case ReadAgain(p) =>
      && p in w.procs && w.procs[p].HasOrder? && !w.procs[p].deciding
      && w.procs[p].order.status == Abnormal && w.procs[p].order.comp == CompOpen && w.procs[p].oid < |w.db.orders|
    case Fail(p, reason) =>
      && p in w.procs && w.procs[p].HasOrder? && !w.procs[p].deciding
      && FailTx(w.db, w.procs[p].oid, w.procs[p].order, reason).Some?
    case SetMark(_) => true
    case Atomic(a) => !a.DoScan?
    case _ => e.p in w.procs && w.procs[e.p].HasOrder? && w.procs[e.p].deciding == e.CommitDecision? &&
              CommitTx(w.db, e, w.procs[e.p].oid, w.procs[e.p].order, w.procs[e.p].bat).Some?
  }

  /** A request between taking and giving back its scan lock. */
  predicate InScan(p: Proc) {
    p.Locked? || p.Counted? || p.HasUser? || p.Booked?
  }

  function Next(w: World, e: Event): World {
    if !Enabled(w, e) then w
    else
      match e
      case Start(p, u) => w.(procs := w.procs[p := Waiting(u)])
      case Lock(p) => w.(procs := w.procs[p := Locked(w.procs[p].u)], held := w.held[w.procs[p].u := p])
      case Count(p) => w.(procs := w.procs[p := Counted(w.procs[p].u)])
      case ReadUser(p) =>
        var u := w.procs[p].u;
        w.(procs := w.procs[p := HasUser(u, w.db.users[u], Credits(w.db, u))])
      case Rent(p, _, _) => Book(w, e, p)
      case BookAbnormal(p, _, _, _) => Book(w, e, p)
      case Release(p) => w.(procs := w.procs - {p}, held := w.held - {w.procs[p].u})
      case ReadOrder(p, oid) =>
        var o := w.db.orders[oid];
        w.(procs := w.procs[p := HasOrder(oid, o, w.db.batteries[o.battery], false)])
      case ReadAgain(p) =>
        w.(procs := w.procs[p := w.procs[p].(order := w.db.orders[w.procs[p].oid], deciding := true)])
      case Fail(p, reason) =>
        w.(db := FailTx(w.db, w.procs[p].oid, w.procs[p].order, reason).value, procs := w.procs - {p})
      case SetMark(m) => w.(db := MarkTx(w.db, m))
      case Atomic(a) => w.(db := Apply(w.db, a))
      case _ =>
        w.(db := CommitTx(w.db, e, w.procs[e.p].oid, w.procs[e.p].order, w.procs[e.p].bat).value,
            procs := w.procs - {e.p})
  }

  function Book(w: World, e: Event, p: nat): World
    requires (e.Rent? || e.BookAbnormal?) && p in w.procs && w.procs[p].HasUser?
    requires BookTx(w.db, e, w.procs[p].u, w.procs[p].snap).Some?
  {
    w.(db := BookTx(w.db, e, w.procs[p].u, w.procs[p].snap).value, procs := w.procs[p := Booked(w.procs[p].u)])
  }

  function Play(w: World, es: seq<Event>): World {
    if es == [] then w else Next(Play(w, es[..|es| - 1]), es[|es| - 1])
  }

  // ---------- what every interleaving keeps ----------

  ghost predicate Sane(w: World) {
    && Base(w.db)
    && (forall p :: p in w.procs && w.procs[p].HasOrder? ==>
          w.procs[p].oid < |w.db.orders| && SameIdentity(w.db.orders[w.procs[p].oid], w.procs[p].order))
    && (forall p :: p in w.procs && !w.procs[p].HasOrder? ==> w.procs[p].u < |w.db.users|)
    && (forall p :: p in w.procs && InScan(w.procs[p]) ==> w.procs[p].u in w.held && w.held[w.procs[p].u] == p)
    && (forall p :: p in w.procs && w.procs[p].HasUser? ==> w.procs[p].snap.balance >= 0)
  }

  // ---------- commits ----------

  lemma ReturnKeepsRefs(db: Db, e: Event, oid: nat, snap: Order, bat: Battery)
    requires e.CommitDetect? || e.CommitManual?
    requires Base(db) && oid < |db.orders| && SameIdentity(db.orders[oid], snap)
    ensures var r := CommitTx(db, e, oid, snap, bat); r.Some? ==> RefsKept(db, r.value)
  {
    var r := CommitTx(db, e, oid, snap, bat);
    if r.Some? {
      RewriteKeepsRefs(db, r.value, oid, Settlement(oid, snap, r.value.orders[oid].totalFee));
    }
  }

  lemma LostKeepsRefs(db: Db, oid: nat, snap: Order, fee: int, now: int)
    requires Base(db) && oid < |db.orders| && SameIdentity(db.orders[oid], snap)
    ensures var r := LostTx(db, oid, snap, fee, now); r.Some? ==> RefsKept(db, r.value)
  {
    var r := LostTx(db, oid, snap, fee, now);
    if r.Some? {
      RewriteKeepsRefs(db, r.value, oid, LostSettlement(oid, snap, r.value.orders[oid].totalFee));
    }
  }

  lemma DamageKeepsRefs(db: Db, oid: nat, snap: Order, fee: int)
    requires Base(db) && oid < |db.orders| && SameIdentity(db.orders[oid], snap)
    ensures var r := DamageTx(db, oid, snap, fee); r.Some? ==> RefsKept(db, r.value)
  {
    var r := DamageTx(db, oid, snap, fee);
    if r.Some? {
      assert r.value.records == db.records + [];
      RewriteKeepsRefs(db, r.value, oid, []);
    }
  }

  lemma OperatorKeepsRefs(db: Db, oid: nat, snap: Order, action: CompAction, now: int)
    requires Base(db) && oid < |db.orders| && SameIdentity(db.orders[oid], snap)
    ensures var r := OperatorTx(db, oid, snap, action, now); r.Some? ==> RefsKept(db, r.value)
  {
    var r := OperatorTx(db, oid, snap, action, now);
    if r.Some? {
      RewriteKeepsRefs(db, r.value, oid, if action == RefundDeposit then RefundAll(oid, snap) else []);
    }
  }

  lemma DecisionKeepsRefs(db: Db, oid: nat, snap: Order, suggested: CompAction, battery: Option<nat>, now: int)
    requires Base(db) && oid < |db.orders| && SameIdentity(db.orders[oid], snap)
    ensures var r := DecideFrom(db, oid, snap, suggested, battery, now); r.Some? ==> RefsKept(db, r.value)
  {
    var r := DecideFrom(db, oid, snap, suggested, battery, now);
    if r.Some? {
      RewriteKeepsRefs(db, r.value, oid, if suggested == RefundDeposit then RefundAll(oid, snap) else []);
    }
  }

  lemma CommitKeepsRefs(db: Db, e: Event, oid: nat, snap: Order, bat: Battery)
    requires IsCommit(e) && Base(db) && oid < |db.orders| && SameIdentity(db.orders[oid], snap)
    ensures var r := CommitTx(db, e, oid, snap, bat); r.Some? ==> RefsKept(db, r.value)
  {
    match e
    case CommitLost(_, fee, now) => LostKeepsRefs(db, oid, snap, fee, now);
    case CommitDamage(_, fee) => DamageKeepsRefs(db, oid, snap, fee);
    case CommitOperator(_, action, now) => OperatorKeepsRefs(db, oid, snap, action, now);
    case CommitDecision(_, suggested, battery, now) => DecisionKeepsRefs(db, oid, snap, suggested, battery, now);
    case _ => ReturnKeepsRefs(db, e, oid, snap, bat);
  }

  lemma CommitMoves(db: Db, e: Event, oid: nat, snap: Order, bat: Battery)
    requires IsCommit(e) && Base(db) && oid < |db.orders| && SameIdentity(db.orders[oid], snap)
    ensures var r := CommitTx(db, e, oid, snap, bat);
            r.Some? ==> Moved(db, r.value, oid, snap.user, Staleness(db, oid, snap))
  {
    match e
    case CommitDetect(_, review, cab, k, soc, now) =>
      DetectTxMoves(db, oid, snap, review, cab, k, snap.battery, soc, now);
    case CommitManual(_, cab, slotNo, now) => ManualTxMoves(db, oid, snap, bat, cab, slotNo, now);
    case CommitLost(_, fee, now) => LostTxMoves(db, oid, snap, fee, now);
    case CommitDamage(_, fee) =>
      assert OrderLinked(db, db.orders[oid]);
      DamageTxMoves(db, oid, snap, fee);
    case CommitOperator(_, action, now) => OperatorTxMoves(db, oid, snap, action, now);
    case CommitDecision(_, suggested, battery, now) => DecideFromMoves(db, oid, snap, suggested, battery, now);
  }

  lemma FailKeeps(db: Db, oid: nat, snap: Order, reason: Reason)
    requires Base(db)
    ensures var r := FailTx(db, oid, snap, reason);
            r.Some? ==> RefsKept(db, r.value) && Still(db, r.value) && r.value.returned == db.returned
  {
    var r := FailTx(db, oid, snap, reason);
    if r.Some? {
      StillOrders(db, r.value);
      assert r.value.records == db.records + [];
      RewriteKeepsRefs(db, r.value, oid, []);
    }
  }

  lemma MarkKeeps(db: Db, m: Mark)
    requires Base(db)
    ensures var db' := MarkTx(db, m);
            && RefsKept(db, db') && Still(db, db')
            && db'.orders == db.orders && db'.users == db.users && db'.returned == db.returned
            && db'.batteries == db.batteries && |db'.slots| == |db.slots|
  {
    SideSteps(db, MarkTx(db, m));
    StillOrders(db, MarkTx(db, m));
  }

  lemma BookMoves(db: Db, e: Event, u: nat, snap: User)
    requires (e.Rent? || e.BookAbnormal?) && Base(db) && u < |db.users| && snap.balance >= 0
    requires BookTx(db, e, u, snap).Some? && (e.BookAbnormal? ==> e.reason != NoReason)
    ensures var db' := BookTx(db, e, u, snap).value;
            && RefsKept(db, db')
            && |db'.orders| == |db.orders| + 1
            && db'.orders[|db.orders|].user == u
            && db'.orders[|db.orders|].depositAmt == DepositDue(db, snap)
            && Opened(db, db', u, OpeningDrift(db, snap, db'.orders[|db.orders|]), DepositDue(db, snap))
  {
    var db' := BookTx(db, e, u, snap).value;
    var o := db'.orders[|db.orders|];
    var booked := OpenOrder(db, snap, o);
    OpenOrderMoves(db, snap, o);
    assert SameMoney(booked, db');
    SameMoneyOpened(db, booked, db', u, OpeningDrift(db, snap, o), o.depositAmt);
    OpenOrderSteps(db, snap, o);
    SideSteps(booked, db');
    StepChain(db, booked, db');
    forall i: nat | i < |db.orders| ensures SameIdentity(db.orders[i], db'.orders[i]) {
      assert Lives(db.orders[i], db'.orders[i], false);
    }
  }

  lemma SameMoneyOpened(db: Db, db1: Db, db2: Db, u: nat, delta: int, amount: nat)
    requires Opened(db, db1, u, delta, amount) && SameMoney(db1, db2)
    ensures Opened(db, db2, u, delta, amount)
  {
    forall who: set<nat> ensures Ledger(db2, who) == Ledger(db1, who) {}
    forall v: nat ensures Freezes(db2, v) == Freezes(db1, v) {}
    forall x: nat | x < |db2.orders| ensures Deposit(db2, x) == Deposit(db1, x) && Pledge(db2, x) == Pledge(db1, x) {}
  }

  lemma AtomicKeepsRefs(db: Db, a: Action)
    requires Base(db)
    ensures RefsKept(db, Apply(db, a))
  {
    ApplySteps(db, a);
    forall i: nat | i < |db.orders| ensures SameIdentity(db.orders[i], Apply(db, a).orders[i]) {
      assert Lives(db.orders[i], Apply(db, a).orders[i], LostBy(a) == Some(i));
    }
  }

  lemma NextKeepsRefs(w: World, e: Event)
    requires Sane(w)
    ensures RefsKept(w.db, Next(w, e).db)
  {
    hide CommitTx, BookTx, FailTx, MarkTx, Apply;
    if Enabled(w, e) {
      if e.Atomic? {
        AtomicKeepsRefs(w.db, e.a);
      } else if e.Rent? || e.BookAbnormal? {
        BookMoves(w.db, e, w.procs[e.p].u, w.procs[e.p].snap);
      } else if IsCommit(e) {
        CommitKeepsRefs(w.db, e, w.procs[e.p].oid, w.procs[e.p].order, w.procs[e.p].bat);
      } else if e.Fail? {
        FailKeeps(w.db, w.procs[e.p].oid, w.procs[e.p].order, e.reason);
      } else if e.SetMark? {
        MarkKeeps(w.db, e.m);
      }
    }
  }

  lemma NextSane(w: World, e: Event)
    requires Sane(w)
    ensures Sane(Next(w, e))
  {
    NextKeepsRefs(w, e);
    if IsCommit(e) || e.Atomic? || e.Fail? || e.SetMark? { WriteSane(w, e); }
    else if e.Rent? || e.BookAbnormal? { BookSane(w, e); }
    else { ReadSane(w, e); }
  }

  lemma WriteSane(w: World, e: Event)
    requires Sane(w) && RefsKept(w.db, Next(w, e).db) && (IsCommit(e) || e.Atomic? || e.Fail? || e.SetMark?)
    ensures Sane(Next(w, e))
  {
    hide CommitTx, BookTx, FailTx, MarkTx, Apply;
  }

  lemma BookSane(w: World, e: Event)
    requires Sane(w) && RefsKept(w.db, Next(w, e).db) && (e.Rent? || e.BookAbnormal?)
    ensures Sane(Next(w, e))
  {
    hide CommitTx, BookTx, FailTx, MarkTx, Apply;
  }

  lemma ReadSane(w: World, e: Event)
    requires Sane(w) && !IsCommit(e) && !e.Atomic? && !e.Rent? && !e.BookAbnormal? && !e.Fail? && !e.SetMark?
    ensures Sane(Next(w, e))
  {
    hide CommitTx, BookTx, FailTx, MarkTx, Apply, HasActive, Credits, Linked;
  }

  // ---------- the exact drift ----------

  /** How far one event moves the books of a group: a scan by what the balance had moved since it was read, an order
      handler by what it believed held less what was held; every other event not at all. */
  function Drift(w: World, e: Event, who: set<nat>): int
    requires Sane(w)
  {
    if !Enabled(w, e) then 0
    else if e.Rent? || e.BookAbnormal? then
      var u, snap := w.procs[e.p].u, w.procs[e.p].snap;
      if u in who && DepositDue(w.db, snap) > 0 then snap.balance - w.db.users[u].balance else 0
    else if IsCommit(e) then
      var oid, snap := w.procs[e.p].oid, w.procs[e.p].order;
      if snap.user in who then Held(snap) - Held(w.db.orders[oid]) else 0
    else 0
  }

  lemma NextDrift(w: World, e: Event, who: set<nat>)
    requires Sane(w)
    ensures Ledger(Next(w, e).db, who) == Ledger(w.db, who) + Drift(w, e, who)
  {
    hide CommitTx, BookTx, FailTx, MarkTx, Apply;
    if Enabled(w, e) {
      if e.Atomic? {
        AttemptStill(w.db, e.a);
      } else if e.Rent? || e.BookAbnormal? {
        BookMoves(w.db, e, w.procs[e.p].u, w.procs[e.p].snap);
      } else if IsCommit(e) {
        CommitDrift(w, e, who);
      } else if e.Fail? {
        FailKeeps(w.db, w.procs[e.p].oid, w.procs[e.p].order, e.reason);
      } else if e.SetMark? {
        MarkKeeps(w.db, e.m);
      }
    }
  }

  lemma CommitDrift(w: World, e: Event, who: set<nat>)
    requires Sane(w) && Enabled(w, e) && IsCommit(e)
    ensures Ledger(Next(w, e).db, who) == Ledger(w.db, who) + Drift(w, e, who)
  {
    hide CommitTx, BookTx, FailTx, MarkTx, Apply;
    CommitMoves(w.db, e, w.procs[e.p].oid, w.procs[e.p].order, w.procs[e.p].bat);
  }

  lemma {:induction false} PlaySane(w: World, es: seq<Event>)
    requires Sane(w)
    ensures Sane(Play(w, es))
  {
    if es != [] {
      PlaySane(w, es[..|es| - 1]);
      NextSane(Play(w, es[..|es| - 1]), es[|es| - 1]);
    }
  }

  // ---------- scans: the drift is the credits lost ----------

  /** Since a scan read its user row, the balance has moved by what the user was credited, and by nothing else. */
  ghost predicate WindowsClear(w: World) {
    forall p :: p in w.procs && w.procs[p].HasUser? && w.procs[p].u < |w.db.users| ==>
      w.db.users[w.procs[p].u].balance - w.procs[p].snap.balance == Credits(w.db, w.procs[p].u) - w.procs[p].credited
  }

  lemma NextWindows(w: World, e: Event)
    requires Sane(w) && WindowsClear(w)
    ensures WindowsClear(Next(w, e))
  {
    hide CommitTx, BookTx, FailTx, MarkTx, Apply;
    var w' := Next(w, e);
    forall p | p in w'.procs && w'.procs[p].HasUser? && w'.procs[p].u < |w'.db.users|
      ensures w'.db.users[w'.procs[p].u].balance - w'.procs[p].snap.balance
              == Credits(w'.db, w'.procs[p].u) - w'.procs[p].credited
    {
      var v := w'.procs[p].u;
      NextKeepsRefs(w, e);
      if Enabled(w, e) && (e.Atomic? || IsCommit(e) || e.Fail? || e.SetMark? || e.Rent? || e.BookAbnormal?) {
        assert w.procs[p] == w'.procs[p];
        OthersMoveByCredits(w, e, p, v);
      }
    }
  }

  lemma OthersMoveByCredits(w: World, e: Event, p: nat, v: nat)
    requires Sane(w) && Enabled(w, e)
    requires e.Atomic? || IsCommit(e) || e.Fail? || e.SetMark? || e.Rent? || e.BookAbnormal?
    requires p in w.procs && w.procs[p].HasUser? && w.procs[p].u == v < |w.db.users| == |Next(w, e).db.users|
    requires (e.Rent? || e.BookAbnormal?) ==> e.p != p
    ensures Next(w, e).db.users[v].balance - w.db.users[v].balance == Credits(Next(w, e).db, v) - Credits(w.db, v)
  {
    hide CommitTx, BookTx, FailTx, MarkTx, Apply;
    var db, db' := w.db, Next(w, e).db;
    if e.Atomic? {
      AttemptStill(db, e.a);
    } else if IsCommit(e) {
      CommitMoves(db, e, w.procs[e.p].oid, w.procs[e.p].order, w.procs[e.p].bat);
    } else if e.Fail? {
      FailKeeps(db, w.procs[e.p].oid, w.procs[e.p].order, e.reason);
    } else if e.SetMark? {
      MarkKeeps(db, e.m);
    } else {
      assert w.procs[e.p].u != v;
      BookMoves(db, e, w.procs[e.p].u, w.procs[e.p].snap);
    }
    assert Cash(db', v) == Cash(db, v) && Freezes(db', v) == Freezes(db, v);
  }

  lemma {:induction false} PlayWindows(w: World, es: seq<Event>)
    requires Sane(w) && WindowsClear(w)
    ensures Sane(Play(w, es)) && WindowsClear(Play(w, es))
  {
    if es != [] {
      PlayWindows(w, es[..|es| - 1]);
      NextSane(Play(w, es[..|es| - 1]), es[|es| - 1]);
      NextWindows(Play(w, es[..|es| - 1]), es[|es| - 1]);
    }
  }

  /** What a booking overwrites: the credits its user received since the booking's read. */
  function WindowLoss(w: World, e: Event, who: set<nat>): int
    requires Sane(w)
  {
    if Enabled(w, e) && (e.Rent? || e.BookAbnormal?) && w.procs[e.p].u in who && DepositDue(w.db, w.procs[e.p].snap) > 0
    then Credits(w.db, w.procs[e.p].u) - w.procs[e.p].credited else 0
  }

  /** What a commit settles that was settled already. */
  function StaleGain(w: World, e: Event, who: set<nat>): int
    requires Sane(w)
  {
    if Enabled(w, e) && IsCommit(e) && w.procs[e.p].order.user in who
    then Held(w.procs[e.p].order) - Held(w.db.orders[w.procs[e.p].oid]) else 0
  }

  function Gap(w: World, es: seq<Event>, who: set<nat>): int
    requires Sane(w)
  {
    if es == [] then 0
    else
      PlaySane(w, es[..|es| - 1]);
      var m, e := Play(w, es[..|es| - 1]), es[|es| - 1];
      Gap(w, es[..|es| - 1], who) + StaleGain(m, e, who) - WindowLoss(m, e, who)
  }

  /** The conservation gap of any interleaving is the deposits settled from stale rows less the credits committed inside
      scan windows; with no credit inside a window and no stale row there is no gap. Balances stay non-negative. */
  lemma {:induction false} EveryInterleavingGap(w: World, es: seq<Event>, who: set<nat>)
    requires Sane(w) && WindowsClear(w)
    ensures Ledger(Play(w, es).db, who) == Ledger(w.db, who) + Gap(w, es, who)
    ensures forall u | 0 <= u < |Play(w, es).db.users| :: Play(w, es).db.users[u].balance >= 0
  {
    PlaySane(w, es);
    if es != [] {
      var m, e := Play(w, es[..|es| - 1]), es[|es| - 1];
      EveryInterleavingGap(w, es[..|es| - 1], who);
      PlayWindows(w, es[..|es| - 1]);
      NextDrift(m, e, who);
      DriftIsGap(m, e, who);
    }
  }

  lemma DriftIsGap(w: World, e: Event, who: set<nat>)
    requires Sane(w) && WindowsClear(w)
    ensures Drift(w, e, who) == StaleGain(w, e, who) - WindowLoss(w, e, who)
  {
  }

  // ---------- returns: at most one settlement ----------

  function ReturnsOf(w: World, es: seq<Event>, oid: nat): nat {
    if es == [] then 0
    else
      var m, e := Play(w, es[..|es| - 1]), es[|es| - 1];
      ReturnsOf(w, es[..|es| - 1], oid)
      + (if (e.CommitDetect? || e.CommitManual?) && Enabled(m, e) && m.procs[e.p].oid == oid then 1 else 0)
  }

  lemma AtomicKeepsReturned(db: Db, a: Action)
    ensures forall i :: i in db.returned ==> i in Apply(db, a).returned
  {
    hide DecideOne, DecideTx;
    match a
    case DoScan(u, cab, no, now) => var marked, no', reason, k := ScanCases(db, u, cab, no, now);
    case DoUnlockReport(cab, no, ok, now) =>
      var k := FindSlot(db.slots, cab, no);
      if k.Some? {
        UnlockLoopReturned(ConfirmUnlock(db, k.value), cab, k.value, |db.orders|, now);
        FailLoopReturned(db, cab, k.value, |db.orders|, now);
      }
    case DoHeartbeat(cab, accepted, online, now) =>
      RecoveryLoopReturned(SetCabinet(db, cab, Cabinet(Online, Some(now))), cab, |db.orders|, now);
    case DoReplayed(cab, now) =>
      RecoveryLoopReturned(SetCabinet(db, cab, Cabinet(Online, Some(now))), cab, |db.orders|, now);
    case _ =>
  }

  lemma UnlockLoopReturned(db: Db, cab: nat, k: nat, n: nat, now: int)
    ensures UnlockLoop(db, cab, k, n, now).returned == db.returned
    decreases n
  {
  }

  lemma RecoveryLoopReturned(db: Db, cab: nat, n: nat, now: int)
    ensures RecoveryLoop(db, cab, n, now).returned == db.returned
    decreases n
  {
  }

  lemma FailLoopReturned(db: Db, cab: nat, k: nat, n: nat, now: int)
    ensures FailLoop(db, cab, k, n, now).returned == db.returned
    decreases n
  {
  }

  lemma NextKeepsReturned(w: World, e: Event)
    ensures forall i :: i in w.db.returned ==> i in Next(w, e).db.returned
  {
    if e.Atomic? { AtomicKeepsReturned(w.db, e.a); }
  }

  lemma ReturnIsFirst(w: World, e: Event)
    requires Enabled(w, e) && (e.CommitDetect? || e.CommitManual?)
    ensures var oid := w.procs[e.p].oid; oid !in w.db.returned && oid in Next(w, e).db.returned
  {
  }

  /** However reads and commits interleave, an order's return commits at most once, and never after a serial one. */
  lemma {:induction false} AtMostOneReturn(w: World, es: seq<Event>, oid: nat)
    ensures ReturnsOf(w, es, oid) + (if oid in w.db.returned then 1 else 0) <= 1
    ensures ReturnsOf(w, es, oid) == 1 || oid in w.db.returned ==> oid in Play(w, es).db.returned
  {
    if es != [] {
      var m, e := Play(w, es[..|es| - 1]), es[|es| - 1];
      AtMostOneReturn(w, es[..|es| - 1], oid);
      NextKeepsReturned(m, e);
      if Enabled(m, e) && (e.CommitDetect? || e.CommitManual?) { ReturnIsFirst(m, e); }
    }
  }

  // ---------- returns: the deposit is settled at most once ----------

  /** Events other than returns that could settle a deposit or write one back. */
  predicate SettlesOtherwise(e: Event) {
    || e.CommitLost? || e.CommitDamage? || e.CommitOperator? || e.CommitDecision?
    || (e.Atomic? && (e.a.DoLost? || e.a.DoOperator? || e.a.DoUnlockReport? || e.a.DoHeartbeat? || e.a.DoReplayed?))
  }

  /** A row read by a request shows the deposit as it is, unless the order has been returned since. */
  ghost predicate SnapsCurrent(w: World) {
    forall p | p in w.procs && w.procs[p].HasOrder? && w.procs[p].oid < |w.db.orders|
        && w.procs[p].oid !in w.db.returned ::
      Held(w.procs[p].order) == Held(w.db.orders[w.procs[p].oid])
  }

  lemma AtomicKeepsHeld(db: Db, a: Action, i: nat)
    requires i < |db.orders|
    requires !a.DoScan? && !SettlesOtherwise(Atomic(a))
    ensures var db' := Apply(db, a);
            i < |db'.orders| && (i in db'.returned || Held(db'.orders[i]) == Held(db.orders[i]))
  {
  }

  lemma NextSnapsCurrent(w: World, e: Event)
    requires Sane(w) && SnapsCurrent(w) && !SettlesOtherwise(e)
    ensures SnapsCurrent(Next(w, e))
  {
    hide CommitTx, BookTx, FailTx, MarkTx, Apply;
    if Enabled(w, e) {
      if e.Atomic? {
        AtomicSnapsCurrent(w, e);
      } else if e.CommitDetect? || e.CommitManual? {
        ReturnSnapsCurrent(w, e);
      } else if e.Fail? {
        FailSnapsCurrent(w, e);
      } else if e.SetMark? {
        MarkKeeps(w.db, e.m);
      } else if e.Rent? || e.BookAbnormal? {
        BookSnapsCurrent(w, e);
      }
    }
  }

  lemma BookSnapsCurrent(w: World, e: Event)
    requires Sane(w) && SnapsCurrent(w) && Enabled(w, e) && (e.Rent? || e.BookAbnormal?)
    ensures SnapsCurrent(Next(w, e))
  {
  }

  lemma AtomicSnapsCurrent(w: World, e: Event)
    requires Sane(w) && SnapsCurrent(w) && !SettlesOtherwise(e) && e.Atomic? && Enabled(w, e)
    ensures SnapsCurrent(Next(w, e))
  {
    var w' := Next(w, e);
    forall p | p in w'.procs && w'.procs[p].HasOrder?
               && w'.procs[p].oid < |w'.db.orders| && w'.procs[p].oid !in w'.db.returned
      ensures Held(w'.procs[p].order) == Held(w'.db.orders[w'.procs[p].oid])
    {
      AtomicKeepsReturned(w.db, e.a);
      AtomicKeepsHeld(w.db, e.a, w'.procs[p].oid);
    }
  }

  lemma ReturnSnapsCurrent(w: World, e: Event)
    requires Sane(w) && SnapsCurrent(w) && Enabled(w, e) && (e.CommitDetect? || e.CommitManual?)
    ensures SnapsCurrent(Next(w, e))
  {
  }

  lemma FailSnapsCurrent(w: World, e: Event)
    requires Sane(w) && SnapsCurrent(w) && Enabled(w, e) && e.Fail?
    ensures SnapsCurrent(Next(w, e))
  {
  }

  ghost predicate OnlyReturnsSettle(es: seq<Event>) {
    forall i | 0 <= i < |es| :: !SettlesOtherwise(es[i])
  }

  lemma NextDeposit(w: World, e: Event, oid: nat)
    requires Sane(w) && SnapsCurrent(w) && !SettlesOtherwise(e)
    requires oid < |Next(w, e).db.orders| && (oid < |w.db.orders| ==> Deposit(w.db, oid) == 0)
    ensures Deposit(Next(w, e).db, oid) == 0
  {
    hide CommitTx, BookTx, FailTx, MarkTx, Apply;
    if Enabled(w, e) {
      if e.Atomic? {
        AttemptStill(w.db, e.a);
      } else if e.Rent? || e.BookAbnormal? {
        BookDeposit(w, e, oid);
      } else if IsCommit(e) {
        ReturnIsFirst(w, e);
        CommitDeposit(w, e, oid);
      } else if e.Fail? {
        FailKeeps(w.db, w.procs[e.p].oid, w.procs[e.p].order, e.reason);
      } else if e.SetMark? {
        MarkKeeps(w.db, e.m);
      }
    }
  }

  lemma BookDeposit(w: World, e: Event, oid: nat)
    requires Sane(w) && Enabled(w, e) && (e.Rent? || e.BookAbnormal?)
    requires oid < |Next(w, e).db.orders| && (oid < |w.db.orders| ==> Deposit(w.db, oid) == 0)
    ensures Deposit(Next(w, e).db, oid) == 0
  {
    hide CommitTx, BookTx, FailTx, MarkTx, Apply;
    BookMoves(w.db, e, w.procs[e.p].u, w.procs[e.p].snap);
  }

  lemma CommitDeposit(w: World, e: Event, oid: nat)
    requires Sane(w) && SnapsCurrent(w) && Enabled(w, e) && (e.CommitDetect? || e.CommitManual?)
    requires w.procs[e.p].oid !in w.db.returned
    requires oid < |Next(w, e).db.orders| && (oid < |w.db.orders| ==> Deposit(w.db, oid) == 0)
    ensures Deposit(Next(w, e).db, oid) == 0
  {
    hide CommitTx, BookTx, FailTx, MarkTx, Apply;
    CommitMoves(w.db, e, w.procs[e.p].oid, w.procs[e.p].order, w.procs[e.p].bat);
  }

  /** When only returns settle, every order's deposit is accounted for exactly, in every interleaving: what was
      deducted and released for it never exceeds what was frozen, although returns act on rows read earlier. */
  lemma {:induction false} ReturnsSettleOnce(w: World, es: seq<Event>, oid: nat)
    requires Sane(w) && SnapsCurrent(w) && OnlyReturnsSettle(es)
    requires oid < |w.db.orders| ==> Deposit(w.db, oid) == 0
    ensures Sane(Play(w, es)) && SnapsCurrent(Play(w, es))
    ensures oid < |Play(w, es).db.orders| ==> Deposit(Play(w, es).db, oid) == 0
  {
    if es != [] {
      var m, e := Play(w, es[..|es| - 1]), es[|es| - 1];
      ReturnsSettleOnce(w, es[..|es| - 1], oid);
      NextSane(m, e);
      NextSnapsCurrent(m, e);
      if oid < |Next(m, e).db.orders| { NextDeposit(m, e, oid); }
    }
  }
}
