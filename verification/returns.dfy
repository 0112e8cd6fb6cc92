/** What a return collects, and when it is sent to review (internal/handlers/return_service.go). */
module Returns {
  import opened Fees
  import opened Models
  import opened Transactions
  import opened Handlers
  import opened Bookkeeping
  import opened Lifecycle

  /** The action takes order oid back: it found that order renting and committed. */
  predicate TakesBack(db: Db, a: Action, oid: nat) {
    && oid < |db.orders| && db.orders[oid].status == Renting
    && Attempt(db, a).Some?
    && match a
       case DoDetect(_, _, b, _, _, _) => LatestRental(db.orders, b) == Some(oid)
       case DoManual(o, _, _, _) => o == oid
       case _ => false
  }

  function DeductedFor(oid: nat): DepositRecord -> int {
    (r: DepositRecord) => if r.order == oid && r.action == Deduct then r.amount else 0
  }

  /** How long the order has been out at `now`; the automatic return bills no negative time. */
  function SecondsOut(o: Order, a: Action): int
    requires a.DoDetect? || a.DoManual? || a.DoLost?
  {
    match o.startTime
    case None => 0
    case Some(t) => if a.DoDetect? && a.now < t then 0 else a.now - t
  }

  /** The rent for so many seconds by the order's own rule. */
  function Rent(db: Db, o: Order, sec: int): nat {
    if o.rule < |db.rules| then FeeOf(db.rules[o.rule], sec).total else 0
  }

  lemma Deducted(oid: nat, o: Order, fee: nat)
    ensures SumBy(Settlement(oid, o, fee), DeductedFor(oid)) == Min(fee, Held(o))
  {
    var w := DeductedFor(oid);
    if Held(o) == 0 {
    } else if fee >= Held(o) {
      SumOne(DeductRec(oid, o, Held(o)), w);
    } else {
      SumTwo(DeductRec(oid, o, fee), ReleaseRec(oid, o, Held(o) - fee), w);
    }
  }

  /** Both ways of returning an order post the same settlement of the same rent. */
  lemma TakingBackPosts(db: Db, a: Action, oid: nat)
    requires Base(db) && TakesBack(db, a, oid)
    ensures var o, end := db.orders[oid], Apply(db, a);
            && oid < |end.orders| && |end.users| == |db.users| && o.user < |db.users|
            && end.orders[oid].durationSec == SecondsOut(o, a)
            && end.orders[oid].totalFee == end.orders[oid].paidFee == Rent(db, o, SecondsOut(o, a))
            && end.orders[oid].refundAmt == Refundable(o, end.orders[oid].totalFee)
            && end.records == db.records + Settlement(oid, o, end.orders[oid].totalFee)
            && end.users[o.user].balance == db.users[o.user].balance + Refundable(o, end.orders[oid].totalFee)
  {
    assert OrderLinked(db, db.orders[oid]);
  }

  /** A return deducts the rent for the seconds since the order's start up to the deposit held and refunds the rest;
      what the order claims was paid exceeds what was collected by exactly the part of the rent above the deposit. */
  lemma ReturnCollects(db: Db, a: Action, oid: nat)
    requires Base(db) && TakesBack(db, a, oid)
    ensures var o, end := db.orders[oid], Apply(db, a);
            && oid < |end.orders| && |end.users| == |db.users| && o.user < |db.users|
            && var o' := end.orders[oid];
            var collected := SumBy(end.records, DeductedFor(oid)) - SumBy(db.records, DeductedFor(oid));
            && collected + o'.refundAmt == Held(o)
            && end.users[o.user].balance - db.users[o.user].balance == o'.refundAmt
            && o'.durationSec == SecondsOut(o, a)
            && o'.totalFee == o'.paidFee == Rent(db, o, SecondsOut(o, a))
            && o'.paidFee - collected == if o'.paidFee > Held(o) then o'.paidFee - Held(o) else 0
  {
    TakingBackPosts(db, a, oid);
    var o, end := db.orders[oid], Apply(db, a);
    var fee := end.orders[oid].totalFee;
    SumAppend(db.records, Settlement(oid, o, fee), DeductedFor(oid));
    Deducted(oid, o, fee);
  }

  /** With agreeing caps no larger than a frozen deposit, the deposit pays every return in full. */
  lemma CappedReturnsAreCollected(db: Db, a: Action, oid: nat)
    requires Base(db) && TakesBack(db, a, oid)
    requires db.orders[oid].deposit == Frozen && db.orders[oid].rule < |db.rules|
    requires var r := db.rules[db.orders[oid].rule]; 0 < r.maxFee <= db.orders[oid].depositAmt && CapsAgree(r)
    ensures var end := Apply(db, a);
            && oid < |end.orders|
            && var o' := end.orders[oid];
            && o'.paidFee == SumBy(end.records, DeductedFor(oid)) - SumBy(db.records, DeductedFor(oid))
            && o'.paidFee + o'.refundAmt == o'.depositAmt
  {
    ReturnCollects(db, a, oid);
    TakingBackPosts(db, a, oid);
    ApplySteps(db, a);
    var end, r := Apply(db, a), db.rules[db.orders[oid].rule];
    MaxFeeBoundsIffCapsAgree(r);
    assert FeeOf(r, end.orders[oid].durationSec).total <= r.maxFee;
    assert Lives(db.orders[oid], end.orders[oid], LostBy(a) == Some(oid));
  }

  lemma LostDeducted(oid: nat, o: Order, total: nat)
    ensures SumBy(LostSettlement(oid, o, total), DeductedFor(oid)) == Min(total, Held(o))
  {
    var w := DeductedFor(oid);
    var release, deduct := ReleaseRec(oid, o, Refundable(o, total)), DeductRec(oid, o, Min(total, Held(o)));
    SumOne(release, w);
    SumOne(deduct, w);
    SumTwo(release, deduct, w);
    assert [release] + [deduct] == [release, deduct] && [release] + [] == [release] && [] + [deduct] == [deduct];
  }

  /** Marking an order lost charges the rent since its start or the loss fee, whichever is more, takes it from a held
      deposit as far as that goes, and refunds the rest; a deposit settled before is not touched again. */
  lemma LossCollects(db: Db, oid: nat, feeCustom: int, now: int)
    requires Base(db) && oid < |db.orders| && db.orders[oid].status in {Renting, Disputed}
    ensures var o, end := db.orders[oid], Apply(db, DoLost(oid, feeCustom, now));
            && oid < |end.orders| && |end.users| == |db.users| && OrderLinked(db, o)
            && var o' := end.orders[oid];
            var collected := SumBy(end.records, DeductedFor(oid)) - SumBy(db.records, DeductedFor(oid));
            && o'.status == Lost && Held(o') == 0
            && o'.durationSec == SecondsOut(o, DoLost(oid, feeCustom, now))
            && o'.exceptionFee == (if feeCustom > 0 then feeCustom else db.rules[o.rule].lostFee)
            && var rent := Rent(db, o, SecondsOut(o, DoLost(oid, feeCustom, now)));
            && o'.totalFee == (if rent < o'.exceptionFee then o'.exceptionFee else rent)
            && collected == Min(o'.totalFee, Held(o)) && collected + o'.refundAmt == Held(o)
            && end.users[o.user].balance - db.users[o.user].balance == o'.refundAmt
  {
    assert OrderLinked(db, db.orders[oid]);
    var end := Apply(db, DoLost(oid, feeCustom, now));
    var total := end.orders[oid].totalFee;
    SumAppend(db.records, LostSettlement(oid, db.orders[oid], total), DeductedFor(oid));
    LostDeducted(oid, db.orders[oid], total);
  }

  /** An automatic return ends disputed if and only if the reported charge is outside 10..100. The battery was how the
      order was found, so the mismatch the judgement looks for cannot occur, and the temperature decides nothing. */
  lemma ReviewedIffChargeOutOfRange(db: Db, oid: nat, cab: nat, slotNo: nat, b: nat, soc: int, tempOk: bool, now: int)
    requires Base(db) && TakesBack(db, DoDetect(cab, slotNo, b, soc, tempOk, now), oid)
    ensures var end := DetectReturn(db, cab, slotNo, b, soc, tempOk, now).value;
            && oid < |end.orders|
            && end.orders[oid].status == if 10 <= soc <= 100 then Completed else Disputed
  {
    assert OrderLinked(db, db.orders[oid]);
  }

  /** A disputed return moves the same money and leaves the same orders as a completed one, but for the status. */
  lemma ReviewSettlesToo(db: Db, oid: nat, cab: nat, slotNo: nat, b: nat, soc: int, tempOk: bool, now: int)
    requires Base(db) && TakesBack(db, DoDetect(cab, slotNo, b, soc, tempOk, now), oid)
    ensures var seen := DetectReturn(db, cab, slotNo, b, soc, tempOk, now).value;
            var fine := DetectReturn(db, cab, slotNo, b, 50, true, now);
            && fine.Some? && oid < |seen.orders|
            && seen.records == fine.value.records && seen.users == fine.value.users
            && seen.orders == Put(fine.value.orders, oid, fine.value.orders[oid].(status := seen.orders[oid].status))
  {
  }
}
