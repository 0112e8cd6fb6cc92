/** Payment callbacks (internal/handlers/op_service.go, HandleCallback): replays, arrival order, and who gets
    credited. */
module Callbacks {
  import opened Models
  import opened Transactions
  import opened Bookkeeping
  import opened Conservation

  function Feed(db: Db, cbs: seq<Callback>): Db {
    if cbs == [] then db else CallbackTx(Feed(db, cbs[..|cbs| - 1]), cbs[|cbs| - 1])
  }

  function KeysOf(cbs: seq<Callback>): set<CallbackKey> {
    set i | 0 <= i < |cbs| :: KeyOf(cbs[i])
  }

  lemma {:induction false} FeedKeys(db: Db, cbs: seq<Callback>)
    ensures Feed(db, cbs).callbackKeys == db.callbackKeys + KeysOf(cbs)
  {
    if cbs != [] {
      var init, last := cbs[..|cbs| - 1], cbs[|cbs| - 1];
      FeedKeys(db, init);
      assert KeysOf(cbs) == KeysOf(init) + {KeyOf(last)} by {
        assert forall i | 0 <= i < |init| :: cbs[i] == init[i];
      }
    }
  }

  lemma {:induction false} FeedConcat(db: Db, a: seq<Callback>, b: seq<Callback>)
    ensures Feed(db, a + b) == Feed(Feed(db, a), b)
  {
    if b == [] {
      assert a + b == a;
    } else {
      assert (a + b)[..|a + b| - 1] == a + b[..|b| - 1];
      FeedConcat(db, a, b[..|b| - 1]);
    }
  }

  /** A callback whose key has been seen changes nothing, wherever it is replayed. */
  lemma ReplaysChangeNothing(db: Db, before: seq<Callback>, replay: Callback, after: seq<Callback>)
    requires KeyOf(replay) in db.callbackKeys + KeysOf(before)
    ensures Feed(db, before + [replay] + after) == Feed(db, before + after)
  {
    FeedConcat(db, before + [replay], after);
    FeedConcat(db, before, [replay]);
    FeedConcat(db, before, after);
    FeedKeys(db, before);
    assert [replay][..0] == [];
    assert Feed(Feed(db, before), []) == Feed(db, before);
  }

  // ---------- arrival order ----------

  /** The callback turns the payment's status to success. */
  predicate Pays(payments: seq<Payment>, known: nat, cb: Callback) {
    && cb.pay < |payments|
    && Unpaid(payments[cb.pay])
    && Confirms(payments[cb.pay], cb)
    && payments[cb.pay].user < known
  }

  function PaymentsAfter(payments: seq<Payment>, known: nat, cb: Callback): seq<Payment> {
    if cb.pay >= |payments| then payments
    else
      var p := payments[cb.pay];
      if Pays(payments, known, cb) then payments[cb.pay := Counted(p).(status := PaySuccess)]
      else if !Unpaid(p) then payments[cb.pay := Counted(p)]
      else if Confirms(p, cb) then payments
      else payments[cb.pay := Counted(p).(status := PayFailed)]
  }

  function UsersAfter(users: seq<User>, payments: seq<Payment>, cb: Callback): seq<User> {
    if Pays(payments, |users|, cb) then
      var p := payments[cb.pay];
      users[p.user := users[p.user].(balance := users[p.user].balance + p.amount)]
    else users
  }

  function OrdersAfter(orders: seq<Order>, payments: seq<Payment>, known: nat, cb: Callback): seq<Order> {
    if Pays(payments, known, cb) then CreditOrder(orders, payments[cb.pay]) else orders
  }

  lemma Effect(db: Db, cb: Callback)
    requires KeyOf(cb) !in db.callbackKeys
    ensures CallbackTx(db, cb) == db.(callbackKeys := db.callbackKeys + {KeyOf(cb)},
                                      payments := PaymentsAfter(db.payments, |db.users|, cb),
                                      users := UsersAfter(db.users, db.payments, cb),
                                      orders := OrdersAfter(db.orders, db.payments, |db.users|, cb))
  {
  }

  /** After one of two callbacks with different keys, the other pays iff it would have paid before, unless both are for
      one payment, which is paid once. */
  lemma PaysOnce(payments: seq<Payment>, known: nat, a: Callback, b: Callback)
    ensures var after := PaymentsAfter(payments, known, a);
            && |after| == |payments|
            && (forall i | 0 <= i < |payments| :: SamePayment(payments[i], after[i]))
            && (Pays(after, known, b) <==> Pays(payments, known, b) && !(a.pay == b.pay && Pays(payments, known, a)))
  {
  }

  lemma PaymentsCommute(payments: seq<Payment>, known: nat, a: Callback, b: Callback)
    ensures PaymentsAfter(PaymentsAfter(payments, known, a), known, b)
         == PaymentsAfter(PaymentsAfter(payments, known, b), known, a)
  {
  }

  lemma UsersCommute(users: seq<User>, payments: seq<Payment>, a: Callback, b: Callback)
    ensures UsersAfter(UsersAfter(users, payments, a), PaymentsAfter(payments, |users|, a), b)
         == UsersAfter(UsersAfter(users, payments, b), PaymentsAfter(payments, |users|, b), a)
  {
    PaysOnce(payments, |users|, a, b);
    PaysOnce(payments, |users|, b, a);
  }

  lemma OrdersCommute(orders: seq<Order>, payments: seq<Payment>, known: nat, a: Callback, b: Callback)
    ensures OrdersAfter(OrdersAfter(orders, payments, known, a), PaymentsAfter(payments, known, a), known, b)
         == OrdersAfter(OrdersAfter(orders, payments, known, b), PaymentsAfter(payments, known, b), known, a)
  {
    PaysOnce(payments, known, a, b);
    PaysOnce(payments, known, b, a);
  }

  lemma FreshCommute(db: Db, a: Callback, b: Callback)
    requires KeyOf(a) != KeyOf(b) && KeyOf(a) !in db.callbackKeys && KeyOf(b) !in db.callbackKeys
    ensures CallbackTx(CallbackTx(db, a), b) == CallbackTx(CallbackTx(db, b), a)
  {
    var da, db' := CallbackTx(db, a), CallbackTx(db, b);
    Effect(db, a);
    Effect(db, b);
    Effect(da, b);
    Effect(db', a);
    PaymentsCommute(db.payments, |db.users|, a, b);
    UsersCommute(db.users, db.payments, a, b);
    OrdersCommute(db.orders, db.payments, |db.users|, a, b);
    assert db.callbackKeys + {KeyOf(a)} + {KeyOf(b)} == db.callbackKeys + {KeyOf(b)} + {KeyOf(a)};
  }

  lemma Commute(db: Db, a: Callback, b: Callback)
    requires KeyOf(a) != KeyOf(b)
    ensures Feed(db, [a, b]) == Feed(db, [b, a])
  {
    FeedTwo(db, a, b);
    FeedTwo(db, b, a);
    if KeyOf(a) in db.callbackKeys {
      FeedKeys(db, [b]);
      FeedOne(db, b);
    } else if KeyOf(b) in db.callbackKeys {
      FeedKeys(db, [a]);
      FeedOne(db, a);
    } else {
      FreshCommute(db, a, b);
    }
  }

  lemma FeedOne(db: Db, a: Callback)
    ensures Feed(db, [a]) == CallbackTx(db, a)
  {
    assert [a][..0] == [];
    assert Feed(db, []) == db;
  }

  lemma FeedTwo(db: Db, a: Callback, b: Callback)
    ensures Feed(db, [a, b]) == CallbackTx(CallbackTx(db, a), b)
  {
    assert [a, b][..1] == [a];
    FeedOne(db, a);
  }

  predicate DistinctKeys(cbs: seq<Callback>) {
    forall i, j | 0 <= i < j < |cbs| :: KeyOf(cbs[i]) != KeyOf(cbs[j])
  }

  lemma SwapLast(db: Db, init: seq<Callback>, last: Callback, x: Callback)
    requires KeyOf(last) != KeyOf(x)
    ensures Feed(db, init + [last, x]) == Feed(db, (init + [x]) + [last])
  {
    assert (init + [x]) + [last] == init + [x, last];
    FeedConcat(db, init, [last, x]);
    FeedConcat(db, init, [x, last]);
    Commute(Feed(db, init), last, x);
  }

  lemma {:induction false} PullForward(db: Db, front: seq<Callback>, x: Callback)
    requires DistinctKeys(front + [x])
    ensures Feed(db, front + [x]) == Feed(db, [x] + front)
  {
    if front == [] {
      assert front + [x] == [x] + front;
    } else {
      var n := |front| - 1;
      var init, last := front[..n], front[n];
      assert KeyOf((front + [x])[n]) != KeyOf((front + [x])[n + 1]);
      assert front + [x] == init + [last, x];
      SwapLast(db, init, last, x);
      PullFrontDistinct(front, x);
      PullForward(db, init, x);
      FeedConcat(db, init + [x], [last]);
      FeedConcat(db, [x] + init, [last]);
      assert ([x] + init) + [last] == [x] + front;
    }
  }

  lemma PullFrontDistinct(front: seq<Callback>, x: Callback)
    requires front != [] && DistinctKeys(front + [x])
    ensures DistinctKeys(front[..|front| - 1] + [x])
  {
    var all, some := front + [x], front[..|front| - 1] + [x];
    forall i, j | 0 <= i < j < |some| ensures KeyOf(some[i]) != KeyOf(some[j]) {
      var j' := if j == |some| - 1 then |all| - 1 else j;
      assert some[i] == all[i] && some[j] == all[j'];
    }
  }

  lemma TakeOut(b: seq<Callback>, i: nat)
    requires i < |b| && DistinctKeys(b)
    ensures DistinctKeys(b[..i] + [b[i]]) && DistinctKeys(b[..i] + b[i + 1..])
    ensures multiset(b) == multiset{b[i]} + multiset(b[..i] + b[i + 1..])
  {
    var cut := b[..i] + b[i + 1..];
    assert b == b[..i] + [b[i]] + b[i + 1..];
    forall p, q | 0 <= p < q < |cut| ensures KeyOf(cut[p]) != KeyOf(cut[q]) {
      assert cut[p] == b[if p < i then p else p + 1] && cut[q] == b[if q < i then q else q + 1];
    }
    assert b[..i] + [b[i]] == b[..i + 1];
  }

  lemma FindHead(a: seq<Callback>, b: seq<Callback>) returns (i: nat)
    requires multiset(a) == multiset(b) && DistinctKeys(b) && a != []
    ensures i < |b| && b[i] == a[0] && multiset(b[..i] + b[i + 1..]) == multiset(a[1..])
  {
    assert a == [a[0]] + a[1..];
    assert a[0] in multiset(b);
    i :| 0 <= i < |b| && b[i] == a[0];
    TakeOut(b, i);
    assert multiset(a) == multiset{a[0]} + multiset(a[1..]);
    assert multiset(a[1..]) == multiset(a) - multiset{a[0]} == multiset(b[..i] + b[i + 1..]);
  }

  /** Callbacks with distinct keys may arrive in any order: balances, statuses, counts and orders come out the same. */
  lemma {:induction false} OrderDoesNotMatter(db: Db, a: seq<Callback>, b: seq<Callback>)
    requires multiset(a) == multiset(b) && DistinctKeys(b)
    ensures Feed(db, a) == Feed(db, b)
    decreases |a|
  {
    if a == [] {
      assert |multiset(b)| == 0;
    } else {
      var i := FindHead(a, b);
      TakeOut(b, i);
      MoveToFront(db, b, i);
      assert a == [a[0]] + a[1..];
      FeedConcat(db, [a[0]], a[1..]);
      OrderDoesNotMatter(Feed(db, [a[0]]), a[1..], b[..i] + b[i + 1..]);
    }
  }

  lemma MoveToFront(db: Db, b: seq<Callback>, i: nat)
    requires i < |b| && DistinctKeys(b)
    ensures Feed(db, b) == Feed(Feed(db, [b[i]]), b[..i] + b[i + 1..])
  {
    var x, front, back := b[i], b[..i], b[i + 1..];
    TakeOut(b, i);
    assert b == (front + [x]) + back && ([x] + front) + back == [x] + (front + back);
    PullForward(db, front, x);
    FeedConcat(db, front + [x], back);
    FeedConcat(db, [x] + front, back);
    FeedConcat(db, [x], front + back);
  }

  // ---------- who is credited ----------

  /** A callback that says the payment succeeded, with no amount or the right one. */
  predicate Confirms(p: Payment, cb: Callback) {
    cb.success && (cb.amount <= 0 || cb.amount == p.amount)
  }

  predicate FirstWithKey(cbs: seq<Callback>, i: nat)
    requires i < |cbs|
  {
    forall j | 0 <= j < i :: KeyOf(cbs[j]) != KeyOf(cbs[i])
  }

  ghost predicate Confirmed(p: Payment, pay: nat, cbs: seq<Callback>) {
    exists i: nat | i < |cbs| :: cbs[i].pay == pay && Confirms(p, cbs[i]) && FirstWithKey(cbs, i)
  }

  predicate Unpaid(p: Payment) {
    p.status != PaySuccess && p.status != PayRefunded
  }

  ghost predicate SamePayment(p: Payment, p': Payment) {
    p'.user == p.user && p'.order == p.order && p'.amount == p.amount
  }

  lemma ConfirmedStep(p: Payment, pay: nat, init: seq<Callback>, last: Callback)
    ensures Confirmed(p, pay, init + [last])
       <==> Confirmed(p, pay, init)
            || (last.pay == pay && Confirms(p, last) && KeyOf(last) !in KeysOf(init))
  {
    var all, n := init + [last], |init|;
    assert all[n] == last && forall i | 0 <= i < n :: all[i] == init[i];
    assert FirstWithKey(all, n) <==> KeyOf(last) !in KeysOf(init);
    forall i: nat | i < n ensures FirstWithKey(all, i) <==> FirstWithKey(init, i) {
      assert forall j | 0 <= j < i :: all[j] == init[j];
    }
    if Confirmed(p, pay, init) {
      var i: nat :| i < |init| && init[i].pay == pay && Confirms(p, init[i]) && FirstWithKey(init, i);
      assert all[i].pay == pay && FirstWithKey(all, i);
    } else if last.pay == pay && Confirms(p, last) && FirstWithKey(all, n) {
      assert Confirmed(p, pay, all);
    }
  }

  /** A payment ends up credited iff some callback for it is the first with its key and confirms it. */
  lemma {:induction false} CreditedIffConfirmed(db: Db, cbs: seq<Callback>, pay: nat)
    requires pay < |db.payments| && db.payments[pay].user < |db.users| && Unpaid(db.payments[pay])
    requires forall key :: key in db.callbackKeys ==> key.pay != pay
    ensures var end := Feed(db, cbs);
            && |end.payments| == |db.payments| && |end.users| == |db.users|
            && SamePayment(db.payments[pay], end.payments[pay])
            && end.payments[pay].status != PayRefunded
            && (end.payments[pay].status == PaySuccess <==> Confirmed(db.payments[pay], pay, cbs))
  {
    if cbs != [] {
      var n := |cbs| - 1;
      var init, last := cbs[..n], cbs[n];
      CreditedIffConfirmed(db, init, pay);
      FeedKeys(db, init);
      assert cbs == init + [last];
      ConfirmedStep(db.payments[pay], pay, init, last);
      var mid := Feed(db, init);
      if KeyOf(last) !in mid.callbackKeys {
        Effect(mid, last);
      }
    }
  }

  /** Over any callbacks, a user's balance grows by exactly the amounts of the user's newly successful payments. */
  lemma {:induction false} BalanceGrowsByPayments(db: Db, cbs: seq<Callback>, v: nat)
    requires v < |db.users|
    ensures var end := Feed(db, cbs);
            && |end.users| == |db.users|
            && end.users[v].balance - db.users[v].balance
               == SumBy(end.payments, PaidBy({v})) - SumBy(db.payments, PaidBy({v}))
  {
    if cbs != [] {
      BalanceGrowsByPayments(db, cbs[..|cbs| - 1], v);
      var mid := Feed(db, cbs[..|cbs| - 1]);
      CallbackTxStill(mid, cbs[|cbs| - 1]);
      assert Cash(CallbackTx(mid, cbs[|cbs| - 1]), v) == Cash(mid, v);
    }
  }

  function KeysFor(cbs: seq<Callback>, pay: nat): set<CallbackKey> {
    set key | key in KeysOf(cbs) && key.pay == pay
  }

  lemma CountStep(db: Db, cb: Callback, pay: nat)
    requires pay < |db.payments| && db.payments[pay].user < |db.users|
    ensures var end := CallbackTx(db, cb);
            && |end.payments| == |db.payments| && |end.users| == |db.users|
            && end.payments[pay].user == db.payments[pay].user
            && end.payments[pay].callbacks
               == db.payments[pay].callbacks + (if cb.pay == pay && KeyOf(cb) !in db.callbackKeys then 1 else 0)
  {
    if KeyOf(cb) !in db.callbackKeys {
      Effect(db, cb);
    }
  }

  /** The callback count of a payment is the number of distinct keys its callbacks carried. */
  lemma {:induction false} CountsDistinctKeys(db: Db, cbs: seq<Callback>, pay: nat)
    requires pay < |db.payments| && db.payments[pay].user < |db.users|
    requires forall key :: key in db.callbackKeys ==> key.pay != pay
    ensures var end := Feed(db, cbs);
            && |end.payments| == |db.payments| && |end.users| == |db.users|
            && end.payments[pay].user == db.payments[pay].user
            && end.payments[pay].callbacks == db.payments[pay].callbacks + |KeysFor(cbs, pay)|
  {
    if cbs == [] {
      assert KeysFor(cbs, pay) == {};
    } else {
      var init, last := cbs[..|cbs| - 1], cbs[|cbs| - 1];
      CountsDistinctKeys(db, init, pay);
      CountStep(Feed(db, init), last, pay);
      FeedKeys(db, init);
      assert cbs == init + [last];
      KeysForStep(init, last, pay);
      if last.pay == pay {
        AddOne(KeysFor(init, pay), KeyOf(last));
      }
    }
  }

  lemma AddOne(keys: set<CallbackKey>, key: CallbackKey)
    ensures |keys + {key}| == |keys| + (if key in keys then 0 else 1)
  {
    if key in keys {
      assert keys + {key} == keys;
    }
  }

  lemma KeysForStep(init: seq<Callback>, last: Callback, pay: nat)
    ensures KeysFor(init + [last], pay) == KeysFor(init, pay) + (if last.pay == pay then {KeyOf(last)} else {})
  {
    var all := init + [last];
    assert all[|init|] == last && forall i | 0 <= i < |init| :: all[i] == init[i];
    assert KeysOf(all) == KeysOf(init) + {KeyOf(last)};
  }

  /** The key leaves out the status: after a failure callback, the success callback with the same transaction number
      and amount is dropped as a replay, and in the other order the payment is credited. */
  lemma FailureFirstLosesThePayment(db: Db, pay: nat, txn: string, failure: Callback, success: Callback)
    requires pay < |db.payments| && db.payments[pay].user < |db.users| && Unpaid(db.payments[pay])
    requires forall key :: key in db.callbackKeys ==> key.pay != pay
    requires failure == Callback(pay, txn, db.payments[pay].amount, false) && success == failure.(success := true)
    ensures var lost, kept := Feed(db, [failure, success]), Feed(db, [success, failure]);
            && |lost.payments| == |kept.payments| == |db.payments|
            && lost.payments[pay].status == PayFailed && lost.users == db.users
            && kept.payments[pay].status == PaySuccess
  {
    FeedTwo(db, failure, success);
    FeedTwo(db, success, failure);
    Effect(db, failure);
    Effect(db, success);
  }
}
