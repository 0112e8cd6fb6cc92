/** Disputes (internal/handlers/op_service.go): what a decision does, and what all decisions of a run add up to. */
module Disputes {
  import opened Models
  import opened Transactions
  import opened Handlers
  import opened Scanning
  import opened Bookkeeping
  import opened Lifecycle
  import opened Operations

  function Plus(x: int): nat { if x > 0 then x else 0 }

  /** Only the order's user may dispute it, in whatever status it is; the dispute opens with nothing granted. */
  lemma DisputeOpens(db: Db, u: nat, oid: nat)
    ensures var r := Attempt(db, DoCreateDispute(u, oid));
            if oid < |db.orders| && db.orders[oid].user == u then
              r == Some(db.(orders := db.orders[oid := db.orders[oid].(status := Disputed)],
                            disputes := db.disputes + [Dispute(oid, u, Open, 0, 0)]))
            else r == None
  {
  }

  lemma DisputeDecidedIff(db: Db, d: nat, decision: Decision, adjust: int, refund: int)
    ensures Attempt(db, DoHandleDispute(d, decision, adjust, refund)).Some?
            <==> d < |db.disputes| && (db.disputes[d].status == Open || db.disputes[d].status == Reviewing)
  {
  }

  /** A granted dispute pays the refund to the order's user, counts and records it, and lowers the fee by the
      adjustment; any other decision leaves users, orders and records as they are. Either way the dispute notes the
      amounts. */
  lemma DisputeGrants(db: Db, d: nat, decision: Decision, adjust: int, refund: int)
    requires Linked(db) && Attempt(db, DoHandleDispute(d, decision, adjust, refund)).Some?
    ensures var end := Apply(db, DoHandleDispute(d, decision, adjust, refund));
            && d < |db.disputes| == |end.disputes|
            && var x, x' := db.disputes[d], end.disputes[d];
            && x.order < |db.orders| == |end.orders| && db.orders[x.order].user < |db.users|
            && x' == x.(status := if decision == Reject then Rejected else Resolved,
                        adjustFee := adjust, refundAmt := refund)
            && end.disputes == db.disputes[d := x']
            && end == db.(users := end.users, orders := end.orders, records := end.records, disputes := end.disputes)
            && (if decision == Resolve || decision == Partial then
                  var o, o' := db.orders[x.order], end.orders[x.order];
                  && o' == o.(totalFee := o'.totalFee, refundAmt := o.refundAmt + Plus(refund))
                  && o'.totalFee == Plus(o.totalFee - Plus(adjust))
                  && Rewrites(db, end, x.order, o', Plus(refund))
                  && (refund > 0 ==> end.records == db.records + [DepositRecord(x.order, o.user, Refund, refund)])
                  && (refund <= 0 ==> end.records == db.records)
                else end.users == db.users && end.orders == db.orders && end.records == db.records)
  {
    assert OrderLinked(db, db.orders[db.disputes[d].order]);
  }

  /** A second decision on the same dispute changes nothing. */
  lemma DecidedOnce(db: Db, a: Action, b: Action)
    requires a.DoHandleDispute? && b.DoHandleDispute? && a.d == b.d && Attempt(db, a).Some?
    ensures Attempt(Apply(db, a), b) == None && Apply(Apply(db, a), b) == Apply(db, a)
  {
  }

  // ---------- all decisions of a run ----------

  function RefundedOn(oid: nat): DepositRecord -> int {
    (r: DepositRecord) => if r.order == oid && r.action == Refund then r.amount else 0
  }

  /** What the disputes about an order say it was granted. */
  function GrantedOn(oid: nat): Dispute -> int {
    (x: Dispute) => if x.order == oid && x.status == Resolved then Plus(x.refundAmt) else 0
  }

  /** Disputes are only opened, and nothing is refunded. */
  ghost predicate GrantsNone(db: Db, db': Db) {
    && |db'.disputes| >= |db.disputes| && |db'.records| >= |db.records|
    && (forall i | 0 <= i < |db.disputes| :: db'.disputes[i] == db.disputes[i])
    && (forall i | |db.disputes| <= i < |db'.disputes| :: db'.disputes[i].status == Open)
    && (forall i | 0 <= i < |db.records| :: db'.records[i] == db.records[i])
    && (forall i | |db.records| <= i < |db'.records| :: db'.records[i].action != Refund)
  }

  lemma DecideGrantsNone(db: Db, oid: nat, suggested: CompAction, battery: Option<nat>, now: int)
    ensures GrantsNone(db, OrKeep(DecideTx(db, oid, suggested, battery, now), db))
  {
  }

  lemma DecideOneGrantsNone(db: Db, oid: nat, limit: int, now: int)
    requires oid < |db.orders|
    ensures GrantsNone(db, OrKeep(DecideOne(db, oid, limit, now), db))
  {
    hide DecideTx, GrantsNone;
    var b := Some(db.orders[oid].battery);
    DecideGrantsNone(db, oid, ManualReview, None, now);
    DecideGrantsNone(db, oid, ManualReview, b, now);
    DecideGrantsNone(db, oid, RecreateOrder, b, now);
    DecideGrantsNone(db, oid, RefundDeposit, b, now);
  }

  lemma {:induction false} UnlockLoopGrantsNone(db: Db, cab: nat, k: nat, n: nat, now: int)
    ensures GrantsNone(db, UnlockLoop(db, cab, k, n, now))
    decreases n
  {
    hide DecideOne;
    if n > 0 {
      var next := db;
      if n <= |db.orders| && AwaitsUnlock(db.orders[n - 1], cab, k) {
        next := OrKeep(DecideOne(db, n - 1, 48 * 3600, now), db);
        DecideOneGrantsNone(db, n - 1, 48 * 3600, now);
      }
      UnlockLoopGrantsNone(next, cab, k, n - 1, now);
    }
  }

  lemma {:induction false} RecoveryLoopGrantsNone(db: Db, cab: nat, n: nat, now: int)
    ensures GrantsNone(db, RecoveryLoop(db, cab, n, now))
    decreases n
  {
    hide DecideOne;
    if n > 0 {
      var next := db;
      if n <= |db.orders| && AwaitsRecovery(db.orders[n - 1], cab) {
        next := OrKeep(DecideOne(db, n - 1, 24 * 3600, now), db);
        DecideOneGrantsNone(db, n - 1, 24 * 3600, now);
      }
      RecoveryLoopGrantsNone(next, cab, n - 1, now);
    }
  }

  lemma {:induction false} FailLoopGrantsNone(db: Db, cab: nat, k: nat, n: nat, now: int)
    ensures GrantsNone(db, FailLoop(db, cab, k, n, now))
    decreases n
  {
    if n > 0 {
      var next := if n <= |db.orders| && FailsUnlock(db.orders[n - 1], cab, k, now)
                  then db.(orders := db.orders[n - 1 := ToAbnormal(db.orders[n - 1], LockStuck)]) else db;
      FailLoopGrantsNone(next, cab, k, n - 1, now);
    }
  }

  lemma ScanGrantsNone(db: Db, u: nat, cab: nat, no: Option<nat>, now: int)
    ensures GrantsNone(db, Scan(db, u, cab, no, now).db)
  {
    hide Scan;
    var _, _, _, _ := ScanCases(db, u, cab, no, now);
  }

  lemma ReportGrantsNone(db: Db, a: Action)
    requires a.DoUnlockReport? || a.DoHeartbeat? || a.DoReplayed?
    ensures GrantsNone(db, Apply(db, a))
  {
    hide UnlockLoop, RecoveryLoop, FailLoop;
    match a
    case DoUnlockReport(cab, no, ok, now) =>
      var k := FindSlot(db.slots, cab, no);
      if k.Some? {
        UnlockLoopGrantsNone(ConfirmUnlock(db, k.value), cab, k.value, |db.orders|, now);
        FailLoopGrantsNone(db, cab, k.value, |db.orders|, now);
      }
    case DoHeartbeat(cab, _, _, now) =>
      RecoveryLoopGrantsNone(SetCabinet(db, cab, Cabinet(Online, Some(now))), cab, |db.orders|, now);
    case DoReplayed(cab, now) =>
      RecoveryLoopGrantsNone(SetCabinet(db, cab, Cabinet(Online, Some(now))), cab, |db.orders|, now);
  }

  lemma ReturnGrantsNone(db: Db, a: Action)
    requires a.DoDetect? || a.DoManual?
    ensures GrantsNone(db, Apply(db, a))
  {
  }

  lemma OperatorGrantsNone(db: Db, a: Action)
    requires a.DoLost? || a.DoOperator?
    ensures GrantsNone(db, Apply(db, a))
  {
  }

  lemma OthersGrantNone(db: Db, a: Action)
    requires !a.DoHandleDispute?
    ensures GrantsNone(db, Apply(db, a))
  {
    hide Scan, UnlockReport, Heartbeat, RecoverCabinet, DetectReturn, ManualReturn, LostTx, OperatorTx;
    match a
    case DoDetect(_, _, _, _, _, _) => ReturnGrantsNone(db, a);
    case DoManual(_, _, _, _) => ReturnGrantsNone(db, a);
    case DoLost(_, _, _) => OperatorGrantsNone(db, a);
    case DoOperator(_, _, _) => OperatorGrantsNone(db, a);
    case DoScan(u, cab, no, now) => ScanGrantsNone(db, u, cab, no, now);
    case DoUnlockReport(_, _, _, _) => ReportGrantsNone(db, a);
    case DoHeartbeat(_, _, _, _) => ReportGrantsNone(db, a);
    case DoReplayed(_, _) => ReportGrantsNone(db, a);
    case _ =>
  }

  lemma {:induction false} SumZero<T>(xs: seq<T>, w: T -> int)
    requires forall i | 0 <= i < |xs| :: w(xs[i]) == 0
    ensures SumBy(xs, w) == 0
  {
    if xs != [] { SumZero(xs[..|xs| - 1], w); }
  }

  lemma SumGrown<T>(xs: seq<T>, ys: seq<T>, w: T -> int)
    requires |xs| <= |ys| && (forall i | 0 <= i < |xs| :: ys[i] == xs[i])
    requires forall i | |xs| <= i < |ys| :: w(ys[i]) == 0
    ensures SumBy(ys, w) == SumBy(xs, w)
  {
    assert ys == xs + ys[|xs|..];
    SumAppend(xs, ys[|xs|..], w);
    SumZero(ys[|xs|..], w);
  }

  /** The decision is none the service knows, but grants a refund for the order: the dispute is resolved and says so,
      and nobody is paid. */
  predicate GrantsUnpaid(db: Db, a: Action, oid: nat) {
    && a.DoHandleDispute? && a.d < |db.disputes| && db.disputes[a.d].order == oid
    && (db.disputes[a.d].status == Open || db.disputes[a.d].status == Reviewing)
    && a.decision == OtherDecision && a.refund > 0
  }

  /** What the disputes about an order claim was refunded beyond what was. */
  function Unpaid(db: Db, oid: nat): int {
    SumBy(db.disputes, GrantedOn(oid)) - SumBy(db.records, RefundedOn(oid))
  }

  lemma AcceptedDecisionGrants(db: Db, a: Action, oid: nat)
    requires Linked(db) && a.DoHandleDispute? && Attempt(db, a).Some?
    ensures Unpaid(Apply(db, a), oid) == Unpaid(db, oid) + (if GrantsUnpaid(db, a, oid) then a.refund else 0)
  {
    hide Attempt, Apply, Linked;
    DisputeDecidedIff(db, a.d, a.decision, a.adjust, a.refund);
    DisputeGrants(db, a.d, a.decision, a.adjust, a.refund);
    var end := Apply(db, a);
    SumUpdate(db.disputes, a.d, end.disputes[a.d], GrantedOn(oid));
    var x := db.disputes[a.d].order;
    var rec := DepositRecord(x, db.orders[x].user, Refund, Plus(a.refund));
    SumAppend(db.records, [rec], RefundedOn(oid));
    SumOne(rec, RefundedOn(oid));
  }

  lemma DecisionGrants(db: Db, a: Action, oid: nat)
    requires Linked(db) && a.DoHandleDispute?
    ensures Unpaid(Apply(db, a), oid) == Unpaid(db, oid) + (if GrantsUnpaid(db, a, oid) then a.refund else 0)
  {
    hide HandleDisputeTx, Unpaid;
    DisputeDecidedIff(db, a.d, a.decision, a.adjust, a.refund);
    if Attempt(db, a).Some? { AcceptedDecisionGrants(db, a, oid); }
  }

  lemma StepGrants(db: Db, a: Action, oid: nat)
    requires Linked(db)
    ensures Unpaid(Apply(db, a), oid) == Unpaid(db, oid) + (if GrantsUnpaid(db, a, oid) then a.refund else 0)
  {
    hide Apply;
    if a.DoHandleDispute? {
      DecisionGrants(db, a, oid);
    } else {
      OthersGrantNone(db, a);
      SumGrown(db.disputes, Apply(db, a).disputes, GrantedOn(oid));
      SumGrown(db.records, Apply(db, a).records, RefundedOn(oid));
    }
  }

  lemma {:induction false} NeverRefundedBeyondGrants(db: Db, run: seq<Action>, oid: nat)
    requires Fresh(db)
    ensures Unpaid(Run(db, run), oid) >= 0
  {
    hide Apply;
    if run != [] {
      var before, a := Run(db, run[..|run| - 1]), run[|run| - 1];
      NeverRefundedBeyondGrants(db, run[..|run| - 1], oid);
      RunHealthy(db, run[..|run| - 1]);
      StepGrants(before, a, oid);
    }
  }

  /** Every refund a decision of the run grants for the order is paid. */
  predicate PaysAlong(db: Db, run: seq<Action>, oid: nat) {
    run == [] || (PaysAlong(db, run[..|run| - 1], oid) && !GrantsUnpaid(Run(db, run[..|run| - 1]), run[|run| - 1], oid))
  }

  /** In every run from deployment the refunds recorded for an order never exceed what its disputes grant, and equal it
      if and only if no dispute about it is granted a refund by a decision the service does not know. */
  lemma {:induction false} RefundsAreGrantedIff(db: Db, run: seq<Action>, oid: nat)
    requires Fresh(db)
    ensures Unpaid(Run(db, run), oid) >= 0
    ensures Unpaid(Run(db, run), oid) == 0 <==> PaysAlong(db, run, oid)
  {
    hide Apply, GrantsUnpaid;
    NeverRefundedBeyondGrants(db, run, oid);
    if run != [] {
      var init := run[..|run| - 1];
      RefundsAreGrantedIff(db, init, oid);
      RunHealthy(db, init);
      LastStepGrants(Run(db, init), run[|run| - 1], oid);
    }
  }

  lemma LastStepGrants(db: Db, a: Action, oid: nat)
    requires Linked(db) && Unpaid(db, oid) >= 0
    ensures Unpaid(Apply(db, a), oid) == 0 <==> Unpaid(db, oid) == 0 && !GrantsUnpaid(db, a, oid)
  {
    hide Apply;
    StepGrants(db, a, oid);
  }

  /** Through any further run a decided dispute stays as it was decided. */
  lemma {:induction false} DecisionsStand(db: Db, run: seq<Action>, d: nat)
    requires Base(db) && d < |db.disputes| && db.disputes[d].status in {Resolved, Rejected}
    ensures var end := Run(db, run); Base(end) && d < |end.disputes| && end.disputes[d] == db.disputes[d]
  {
    hide Apply;
    if run != [] {
      var before, a := Run(db, run[..|run| - 1]), run[|run| - 1];
      DecisionsStand(db, run[..|run| - 1], d);
      ApplySteps(before, a);
      if a.DoHandleDispute? { OtherDisputesStay(before, a, d); } else { OthersGrantNone(before, a); }
    }
  }

  lemma OtherDisputesStay(db: Db, a: Action, d: nat)
    requires a.DoHandleDispute? && d < |db.disputes| && db.disputes[d].status in {Resolved, Rejected}
    ensures var end := Apply(db, a); d < |end.disputes| && end.disputes[d] == db.disputes[d]
  {
  }
}
