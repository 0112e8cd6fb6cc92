/** Scanning an offline cabinet again and again (internal/handlers/rental_service.go). */
module Rescans {
  import opened Fees
  import opened Models
  import opened Transactions
  import opened Handlers

  /** A user who may rent and has nothing active asks an offline cabinet for a slot that resolves to a battery. */
  ghost predicate MayScan(db: Db, u: nat, cab: nat, no: Option<nat>) {
    && u < |db.users| && db.users[u].active && !db.users[u].depositFree && !HasActive(db.orders, u)
    && cab < |db.cabinets| && db.cabinets[cab].status != Online
    && db.depositAmt > 0 && DefaultRule(db.rules).Some?
    && AbnormalSlot(db, cab, no).Some?
    && db.slots[AbnormalSlot(db, cab, no).value].battery.Some?
    && db.slots[AbnormalSlot(db, cab, no).value].battery.value < |db.batteries|
  }

  function Scans(db: Db, u: nat, cab: nat, no: Option<nat>, times: seq<int>): Db {
    if times == [] then db else Scan(Scans(db, u, cab, no, times[..|times| - 1]), u, cab, no, times[|times| - 1]).db
  }

  /** n more abnormal orders of the user, each with its deposit frozen, paid from the balance. */
  ghost predicate BookedMore(db: Db, db': Db, u: nat, n: nat) {
    && |db'.orders| == |db.orders| + n && db.orders <= db'.orders
    && (forall i | |db.orders| <= i < |db'.orders| ::
          db'.orders[i].user == u && db'.orders[i].status == Abnormal && Held(db'.orders[i]) == db.depositAmt)
    && |db'.users| == |db.users| && u < |db.users| && db'.depositAmt == db.depositAmt
    && db'.users[u].balance == db.users[u].balance - n * db.depositAmt
    && (forall v | 0 <= v < |db.users| && v != u :: db'.users[v] == db.users[v])
  }

  lemma OneScan(db: Db, u: nat, cab: nat, no: Option<nat>, now: int)
    requires MayScan(db, u, cab, no)
    ensures var db' := Scan(db, u, cab, no, now).db;
            && MayScan(db', u, cab, no)
            && BookedMore(db, db', u, if db.users[u].balance >= db.depositAmt then 1 else 0)
  {
    var db' := Scan(db, u, cab, no, now).db;
    if db.users[u].balance >= db.depositAmt {
      assert !HasActive(db'.orders, u) by {
        forall i | 0 <= i < |db'.orders| && db'.orders[i].user == u ensures !Active(db'.orders[i]) {}
      }
    }
  }

  function Affordable(balance: nat, deposit: Fees.Pos): nat { balance / deposit }

  lemma AffordsOneMore(balance: nat, deposit: Fees.Pos, k: nat)
    requires k <= Affordable(balance, deposit)
    ensures balance - k * deposit >= deposit <==> k < Affordable(balance, deposit)
  {
    var q := balance / deposit;
    assert balance == q * deposit + balance % deposit;
    if k < q { MulMonotone(k + 1, q, deposit); assert (k + 1) * deposit == k * deposit + deposit; }
  }

  /** n scans in a row freeze min(n, balance / deposit) deposits: abnormal orders do not count as active, so the guard
      against repeated scans does not see them. */
  lemma {:induction false} RepeatedScansFreezeRepeatedly(db: Db, u: nat, cab: nat, no: Option<nat>, times: seq<int>)
    requires MayScan(db, u, cab, no) && db.users[u].balance >= 0
    ensures var db' := Scans(db, u, cab, no, times);
            && MayScan(db', u, cab, no)
            && BookedMore(db, db', u, Min(|times|, Affordable(db.users[u].balance, db.depositAmt)))
  {
    if times != [] {
      var n := |times| - 1;
      var mid := Scans(db, u, cab, no, times[..n]);
      RepeatedScansFreezeRepeatedly(db, u, cab, no, times[..n]);
      OneScan(mid, u, cab, no, times[n]);
      var q := Affordable(db.users[u].balance, db.depositAmt);
      var k := Min(n, q);
      AffordsOneMore(db.users[u].balance, db.depositAmt, k);
      var more := if mid.users[u].balance >= mid.depositAmt then 1 else 0;
      BookedChain(db, mid, Scans(db, u, cab, no, times), u, k, more);
    }
  }

  lemma BookedChain(db: Db, mid: Db, end: Db, u: nat, k: nat, n: nat)
    requires BookedMore(db, mid, u, k) && BookedMore(mid, end, u, n)
    ensures BookedMore(db, end, u, k + n)
  {
    assert (k + n) * db.depositAmt == k * db.depositAmt + n * db.depositAmt;
  }
}
