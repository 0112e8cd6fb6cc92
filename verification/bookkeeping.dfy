/** Where the money is: conservation, cash and deposit identities, and the lemmas each transaction needs. */
module Bookkeeping {
  import opened Models
  import opened Transactions

  // ---------- sums over tables ----------

  function SumBy<T>(xs: seq<T>, w: T -> int): int {
    if xs == [] then 0 else SumBy(xs[..|xs| - 1], w) + w(xs[|xs| - 1])
  }

  lemma {:induction false} SumAppend<T>(xs: seq<T>, ys: seq<T>, w: T -> int)
    ensures SumBy(xs + ys, w) == SumBy(xs, w) + SumBy(ys, w)
  {
    if ys == [] {
      assert xs + ys == xs;
    } else {
      assert (xs + ys)[..|xs + ys| - 1] == xs + ys[..|ys| - 1];
      SumAppend(xs, ys[..|ys| - 1], w);
    }
  }

  lemma {:induction false} SumUpdate<T>(xs: seq<T>, i: nat, x: T, w: T -> int)
    requires i < |xs|
    ensures SumBy(xs[i := x], w) == SumBy(xs, w) - w(xs[i]) + w(x)
  {
    var n := |xs| - 1;
    if i == n {
      assert xs[i := x][..n] == xs[..n];
    } else {
      assert xs[i := x][..n] == xs[..n][i := x];
      SumUpdate(xs[..n], i, x, w);
    }
  }

  lemma SumOne<T>(x: T, w: T -> int)
    ensures SumBy([x], w) == w(x)
  {
    assert [x][..0] == [];
  }

  lemma SumTwo<T>(x: T, y: T, w: T -> int)
    ensures SumBy([x, y], w) == w(x) + w(y)
  {
    assert [x, y][..1] == [x];
    SumOne(x, w);
  }

  function Balances(users: seq<User>, who: set<nat>): int {
    if users == [] then 0
    else
      var n := |users| - 1;
      Balances(users[..n], who) + (if n in who then users[n].balance else 0)
  }

  lemma {:induction false} BalancesUpdate(users: seq<User>, u: nat, x: User, who: set<nat>)
    requires u < |users|
    ensures Balances(users[u := x], who) == Balances(users, who) + (if u in who
        then x.balance - users[u].balance else 0)
  {
    var n := |users| - 1;
    if u == n {
      assert users[u := x][..n] == users[..n];
    } else {
      assert users[u := x][..n] == users[..n][u := x];
      BalancesUpdate(users[..n], u, x, who);
    }
  }

  // ---------- the identities ----------

  function Kind(kind: DepositAction): DepositRecord -> int {
    (r: DepositRecord) => if r.action == kind then r.amount else 0
  }
  function HeldBy(who: set<nat>): Order -> int {
    (o: Order) => if o.user in who then Held(o) else 0
  }
  function PaidBy(who: set<nat>): Payment -> int {
    (p: Payment) => if p.user in who && p.status == PaySuccess then p.amount else 0
  }
  function EarnedFrom(who: set<nat>): DepositRecord -> int {
    (r: DepositRecord) => if r.user !in who then 0 else if r.action == Deduct then r.amount
                          else if r.action == Refund then 0 - r.amount else 0
  }
  function FrozenOf(v: nat): DepositRecord -> int {
    (r: DepositRecord) => if r.user == v && r.action == Freeze then r.amount else 0
  }
  function CreditedTo(v: nat): DepositRecord -> int {
    (r: DepositRecord) => if r.user == v && r.action in {Release, Refund} then r.amount else 0
  }
  function SettledOn(oid: nat): DepositRecord -> int {
    (r: DepositRecord) => if r.order != oid || r.action == Refund then 0
                          else if r.action == Freeze then 0 - r.amount else r.amount
  }

  function FrozenFor(oid: nat): DepositRecord -> int {
    (r: DepositRecord) => if r.order == oid && r.action == Freeze then r.amount else 0
  }

  /** Conservation: what users hold, plus deposits held for them, plus what the service earned from deposits
      (deductions less dispute refunds), less what they paid in. */
  function Ledger(db: Db, who: set<nat>): int {
    Balances(db.users, who) + SumBy(db.orders, HeldBy(who))
    + SumBy(db.records, EarnedFrom(who)) - SumBy(db.payments, PaidBy(who))
  }

  /** Everything ever credited to a user: successful payments, released deposits and dispute refunds. */
  function Credits(db: Db, v: nat): int {
    SumBy(db.payments, PaidBy({v})) + SumBy(db.records, CreditedTo(v))
  }

  function Freezes(db: Db, v: nat): int {
    SumBy(db.records, FrozenOf(v))
  }

  /** A balance is the user's credits less the deposits ever frozen. */
  function Cash(db: Db, v: nat): int
    requires v < |db.users|
  {
    db.users[v].balance + Freezes(db, v) - Credits(db, v)
  }

  /** An order's deposit: what is still held, plus deducted, plus released, less frozen. */
  function Deposit(db: Db, oid: nat): int
    requires oid < |db.orders|
  {
    Held(db.orders[oid]) + SumBy(db.records, SettledOn(oid))
  }

  /** What was ever frozen for an order, less its deposit amount. */
  function Pledge(db: Db, oid: nat): int
    requires oid < |db.orders|
  {
    SumBy(db.records, FrozenFor(oid)) - db.orders[oid].depositAmt
  }

  // ---------- how a step moves them ----------

  /** Nothing but order oid of user u may be off, and that one by exactly delta; nobody's cash is off. */
  ghost predicate Moved(db: Db, db': Db, oid: nat, u: nat, delta: int) {
    && |db'.users| == |db.users| && |db'.orders| == |db.orders|
    && (forall who: set<nat> :: Ledger(db', who) == Ledger(db, who) + (if u in who then delta else 0))
    && (forall v: nat | v < |db.users| :: Cash(db', v) == Cash(db, v))
    && (forall v: nat :: Freezes(db', v) == Freezes(db, v))
    && (forall x: nat | x < |db.orders| :: Deposit(db', x) == Deposit(db, x) + (if x == oid then delta else 0))
    && (forall x: nat | x < |db.orders| :: Pledge(db', x) == Pledge(db, x))
  }

  /** A step that keeps all three identities; orders it adds have a balanced deposit. */
  ghost predicate Books(db: Db, db': Db) {
    && |db'.users| == |db.users| && |db'.orders| >= |db.orders|
    && (forall who: set<nat> :: Ledger(db', who) == Ledger(db, who))
    && (forall v: nat | v < |db.users| :: Cash(db', v) == Cash(db, v))
    && (forall x: nat | x < |db.orders| :: Deposit(db', x) == Deposit(db, x) && Pledge(db', x) == Pledge(db, x))
    && (forall x: nat | |db.orders| <= x < |db'.orders| :: Deposit(db', x) == 0 && Pledge(db', x) == 0)
  }

  /** Two databases with the same money columns have the same books. */
  predicate SameMoney(db: Db, db': Db) {
    db'.users == db.users && db'.orders == db.orders && db'.records == db.records && db'.payments == db.payments
  }

  // ---------- postings ----------

  predicate Entries(recs: seq<DepositRecord>, oid: nat, u: nat) {
    forall i | 0 <= i < |recs| :: recs[i].order == oid && recs[i].user == u && recs[i].action != Freeze
  }

  function Total(recs: seq<DepositRecord>, kind: DepositAction): int { SumBy(recs, Kind(kind)) }

  lemma {:induction false} EntriesSums(recs: seq<DepositRecord>, oid: nat, u: nat, who: set<nat>, v: nat, x: nat)
    requires Entries(recs, oid, u)
    ensures SumBy(recs, EarnedFrom(who)) == if u in who then Total(recs, Deduct) - Total(recs, Refund) else 0
    ensures SumBy(recs, CreditedTo(v)) == if u == v then Total(recs, Release) + Total(recs, Refund) else 0
    ensures SumBy(recs, FrozenOf(v)) == 0
    ensures SumBy(recs, FrozenFor(x)) == 0
    ensures SumBy(recs, SettledOn(x)) == if x == oid then Total(recs, Deduct) + Total(recs, Release) else 0
  {
    if recs != [] {
      EntriesSums(recs[..|recs| - 1], oid, u, who, v, x);
    }
  }

  lemma PostLedger(db: Db, oid: nat, o: Order, credit: nat, recs: seq<DepositRecord>, who: set<nat>)
    requires oid < |db.orders| && o.user == db.orders[oid].user < |db.users| && Entries(recs, oid, o.user)
    ensures Ledger(Post(db, oid, o, credit, recs), who) == Ledger(db, who) +
            (if o.user in who
             then credit + Held(o) - Held(db.orders[oid]) + Total(recs, Deduct) - Total(recs, Refund) else 0)
  {
    BalancesUpdate(db.users, o.user, db.users[o.user].(balance := db.users[o.user].balance + credit), who);
    SumUpdate(db.orders, oid, o, HeldBy(who));
    SumAppend(db.records, recs, EarnedFrom(who));
    EntriesSums(recs, oid, o.user, who, 0, 0);
  }

  lemma PostCash(db: Db, oid: nat, o: Order, credit: nat, recs: seq<DepositRecord>, v: nat)
    requires o.user < |db.users| && Entries(recs, oid, o.user)
    requires credit == Total(recs, Release) + Total(recs, Refund)
    ensures v < |db.users| ==> Cash(Post(db, oid, o, credit, recs), v) == Cash(db, v)
    ensures Freezes(Post(db, oid, o, credit, recs), v) == Freezes(db, v)
  {
    SumAppend(db.records, recs, CreditedTo(v));
    SumAppend(db.records, recs, FrozenOf(v));
    EntriesSums(recs, oid, o.user, {}, v, 0);
  }

  lemma PostDeposit(db: Db, oid: nat, o: Order, credit: nat, recs: seq<DepositRecord>, x: nat)
    requires oid < |db.orders| && o.user < |db.users| && Entries(recs, oid, o.user) && x < |db.orders|
    ensures Deposit(Post(db, oid, o, credit, recs), x) == Deposit(db, x) +
            (if x == oid then Held(o) - Held(db.orders[oid]) + Total(recs, Deduct) + Total(recs, Release) else 0)
    ensures o.depositAmt == db.orders[oid].depositAmt ==> Pledge(Post(db, oid, o, credit, recs), x) == Pledge(db, x)
  {
    SumAppend(db.records, recs, FrozenFor(x));
    SumAppend(db.records, recs, SettledOn(x));
    EntriesSums(recs, oid, o.user, {}, 0, x);
  }

  /** A posting that pays out what its records say moves the books by what it believed held less what was held. */
  lemma PostMoves(db: Db, oid: nat, o: Order, credit: nat, recs: seq<DepositRecord>, delta: int)
    requires oid < |db.orders| && o.user == db.orders[oid].user < |db.users| && Entries(recs, oid, o.user)
    requires o.depositAmt == db.orders[oid].depositAmt
    requires credit == Total(recs, Release) + Total(recs, Refund)
    requires delta == Held(o) + Total(recs, Deduct) + Total(recs, Release) - Held(db.orders[oid])
    ensures Moved(db, Post(db, oid, o, credit, recs), oid, o.user, delta)
  {
    var db' := Post(db, oid, o, credit, recs);
    forall who: set<nat> ensures Ledger(db', who) == Ledger(db, who) + (if o.user in who then delta else 0) {
      PostLedger(db, oid, o, credit, recs, who);
    }
    forall v: nat ensures Freezes(db', v) == Freezes(db, v) && (v < |db.users| ==> Cash(db', v) == Cash(db, v)) {
      PostCash(db, oid, o, credit, recs, v);
    }
    forall x: nat | x < |db.orders|
      ensures Deposit(db', x) == Deposit(db, x) + (if x == oid then delta else 0) && Pledge(db', x) == Pledge(db, x)
    {
      PostDeposit(db, oid, o, credit, recs, x);
    }
  }

  lemma SameMoneyMoves(db: Db, db1: Db, db2: Db, oid: nat, u: nat, delta: int)
    requires Moved(db, db1, oid, u, delta) && SameMoney(db1, db2)
    ensures Moved(db, db2, oid, u, delta)
  {
    forall who: set<nat> ensures Ledger(db2, who) == Ledger(db1, who) {}
    forall v: nat ensures Freezes(db2, v) == Freezes(db1, v) {}
    forall x: nat | x < |db.orders| ensures Deposit(db2, x) == Deposit(db1, x) && Pledge(db2, x) == Pledge(db1, x) {}
  }

  lemma MovedNowhere(db: Db, db': Db, oid: nat, u: nat)
    requires Moved(db, db', oid, u, 0)
    ensures Books(db, db')
  {
  }

  lemma BooksChain(db: Db, db1: Db, db2: Db)
    requires Books(db, db1) && Books(db1, db2)
    ensures Books(db, db2)
  {
    forall x: nat | |db.orders| <= x < |db2.orders| ensures Deposit(db2, x) == 0 && Pledge(db2, x) == 0 {
      assert x < |db1.orders| ==> Deposit(db1, x) == 0 && Pledge(db1, x) == 0;
    }
  }

  // ---------- the records each settlement writes ----------

  lemma SettlementTotals(oid: nat, o: Order, fee: nat)
    ensures var recs := Settlement(oid, o, fee);
            && Entries(recs, oid, o.user)
            && Total(recs, Deduct) == Min(fee, Held(o))
            && Total(recs, Release) == Refundable(o, fee)
            && Total(recs, Refund) == 0
  {
    Unfold(Settlement(oid, o, fee), Deduct);
    Unfold(Settlement(oid, o, fee), Release);
    Unfold(Settlement(oid, o, fee), Refund);
  }

  lemma Unfold(recs: seq<DepositRecord>, kind: DepositAction)
    requires |recs| <= 2
    ensures |recs| == 0 ==> Total(recs, kind) == 0
    ensures |recs| == 1 ==> Total(recs, kind) == Kind(kind)(recs[0])
    ensures |recs| == 2 ==> Total(recs, kind) == Kind(kind)(recs[0]) + Kind(kind)(recs[1])
  {
    if |recs| == 1 {
      assert recs == [recs[0]];
      SumOne(recs[0], Kind(kind));
    } else if |recs| == 2 {
      assert recs == [recs[0], recs[1]];
      SumTwo(recs[0], recs[1], Kind(kind));
    }
  }

  lemma LostSettlementTotals(oid: nat, o: Order, total: nat)
    ensures var recs := LostSettlement(oid, o, total);
            && Entries(recs, oid, o.user)
            && Total(recs, Deduct) == Min(total, Held(o))
            && Total(recs, Release) == Refundable(o, total)
            && Total(recs, Refund) == 0
  {
    Unfold(LostSettlement(oid, o, total), Deduct);
    Unfold(LostSettlement(oid, o, total), Release);
    Unfold(LostSettlement(oid, o, total), Refund);
  }

  lemma RefundAllTotals(oid: nat, o: Order)
    ensures var recs := RefundAll(oid, o);
            && Entries(recs, oid, o.user)
            && Total(recs, Deduct) == 0 && Total(recs, Release) == Held(o) && Total(recs, Refund) == 0
  {
    Unfold(RefundAll(oid, o), Deduct);
    Unfold(RefundAll(oid, o), Release);
    Unfold(RefundAll(oid, o), Refund);
  }
}
