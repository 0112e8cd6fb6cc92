/** Device reports of one cabinet (internal/handlers/report_service.go): a sequence cursor, one set of dedup keys for
    live reports and one for replayed ones, and batches replayed in sequence order. */
module Ingestion {
  import opened Models
  import opened Handlers
  import opened Compensation

  datatype Detail = Detail(slotNo: nat, occupied: bool, battery: Option<nat>, lock: int, soc: int)

  /** What a stored report carries. A slot report inside a batch has a sequence number of its own; one that names
      another cabinet is judged by that cabinet's keys and cursor, whose verdict comes with it here. */
  datatype Payload =
    | BatteryData(battery: Option<nat>, soc: int)
    | LockData(slotNo: nat, unlock: bool, opening: bool)
    | SlotData(seqNo: int, details: seq<Detail>)
    | ForeignSlots(cabinet: nat, verdict: Verdict, details: seq<Detail>)
    | OtherData

  datatype Item = Item(seqNo: int, payload: Payload)

  /** `log` lists the positive sequence numbers under which payloads took effect; the service does not keep it. */
  datatype Line = Line(db: Db, cursor: int, live: set<int>, offline: set<int>, log: seq<int>)

  datatype Verdict = Accepted | Duplicate | OutOfOrder

  // ---------- effects ----------

  function SetSoc(db: Db, b: Option<nat>, soc: int): Db {
    if b.Some? && b.value < |db.batteries|
    then db.(batteries := db.batteries[b.value := db.batteries[b.value].(soc := soc)]) else db
  }

  function SetSlots(db: Db, cab: nat, ds: seq<Detail>): Db {
    if ds == [] then db
    else
      var d := ds[|ds| - 1];
      SlotEntry(SetSlots(db, cab, ds[..|ds| - 1]), cab, d.slotNo, d.occupied, d.battery, d.lock, d.soc)
  }

  function Effect(l: Line, db: Db, seqNo: int): Line {
    l.(db := db, log := if seqNo > 0 then l.log + [seqNo] else l.log)
  }

  // ---------- live reports ----------

  /** saveReport: numbers below one skip both the dedup key and the cursor. */
  function Save(l: Line, seqNo: int): (Line, Verdict) {
    if seqNo <= 0 then (l, Accepted)
    else if seqNo in l.live then (l, Duplicate)
    else
      var kept := l.(live := l.live + {seqNo});
      if seqNo <= l.cursor then (kept, OutOfOrder) else (kept.(cursor := seqNo), Accepted)
  }

  predicate Registered(l: Line, cab: nat) { cab < |l.db.cabinets| }

  function BatteryReport(l: Line, cab: nat, seqNo: int, b: Option<nat>, soc: int): Line {
    var (kept, verdict) := Save(l, seqNo);
    if !Registered(l, cab) then l
    else if verdict.Accepted? then Effect(kept, SetSoc(l.db, b, soc), seqNo) else kept
  }

  function SlotReport(l: Line, cab: nat, seqNo: int, ds: seq<Detail>): Line {
    var (kept, verdict) := Save(l, seqNo);
    if !Registered(l, cab) then l
    else if verdict.Accepted? then Effect(kept, SetSlots(l.db, cab, ds), seqNo) else kept
  }

  function HeartbeatReport(l: Line, cab: nat, seqNo: int, online: bool, now: int): Line {
    var (kept, verdict) := Save(l, seqNo);
    if !Registered(l, cab) then l
    else
      var db := Heartbeat(l.db, cab, verdict.Accepted?, online, now);
      if verdict.Accepted? then Effect(kept, db, seqNo) else kept.(db := db)
  }

  /** An unlock report takes effect whatever the verdict; a lock report of another type never does. */
  function LockReport(l: Line, cab: nat, seqNo: int, slotNo: nat, unlock: bool, opening: bool, now: int): Line {
    var kept := Save(l, seqNo).0;
    if !Registered(l, cab) then l
    else if unlock then Effect(kept, LockEffect(l.db, cab, slotNo, unlock, opening, now), seqNo) else kept
  }

  /** The keys and the cursor after live reports with these numbers. */
  function SaveAll(l: Line, ns: seq<int>): Line {
    if ns == [] then l else Save(SaveAll(l, ns[..|ns| - 1]), ns[|ns| - 1]).0
  }

  lemma {:induction false} SavedHistory(l: Line, ns: seq<int>)
    ensures var end := SaveAll(l, ns);
            && (forall m | m > 0 :: m in end.live <==> m in l.live || m in ns)
            && (end.cursor == l.cursor || (end.cursor in ns && end.cursor !in l.live)) && end.cursor >= l.cursor
            && forall m | m in ns && m > 0 && m !in l.live :: m <= end.cursor
  {
    if ns != [] {
      SavedHistory(l, ns[..|ns| - 1]);
      assert ns == ns[..|ns| - 1] + [ns[|ns| - 1]];
    }
  }

  /** After any history of live reports a number is a duplicate if it came before, counts if it is above the cursor and
      above every number that was new to the keys, and is out of order otherwise. */
  lemma VerdictByHistory(l: Line, ns: seq<int>, m: int)
    requires m > 0
    ensures var verdict := Save(SaveAll(l, ns), m).1;
            && (verdict == Duplicate <==> m in l.live || m in ns)
            && (verdict == Accepted <==> m !in l.live && m > l.cursor && forall n | n in ns && n !in l.live :: n < m)
            && (verdict == OutOfOrder <==> && m !in l.live && m !in ns
                                           && (m <= l.cursor || exists n :: n in ns && n !in l.live && n > m))
  {
    SavedHistory(l, ns);
  }

  /** After any history of live reports: a battery report stores its charge if its number counts, a slot report that
      does not count stores nothing, a heartbeat that counts marks the cabinet online, and unlock reports act either
      way. */
  lemma WhatCountsIsStored(start: Line, ns: seq<int>, cab: nat, m: int, d: Detail, ds: seq<Detail>, opening: bool,
                           now: int)
    requires m > 0 && cab < |start.db.cabinets|
    ensures var l, db := SaveAll(start, ns), start.db;
            var counts := m !in start.live && m > start.cursor && forall n | n in ns && n !in start.live :: n < m;
            && BatteryReport(l, cab, m, d.battery, d.soc).db
               == (if counts && d.battery.Some? && d.battery.value < |db.batteries|
                   then db.(batteries := db.batteries[d.battery.value := db.batteries[d.battery.value].(soc := d.soc)])
                   else db)
            && (!counts ==> SlotReport(l, cab, m, ds).db == db)
            && (counts ==> SlotReport(l, cab, m, [d]).db
                           == SlotEntry(db, cab, d.slotNo, d.occupied, d.battery, d.lock, d.soc))
            && HeartbeatReport(l, cab, m, false, now).db
               == (if counts then db.(cabinets := db.cabinets[cab := Cabinet(Online, Some(now))]) else db)
            && LockReport(l, cab, m, d.slotNo, true, opening, now).db == UnlockReport(db, cab, d.slotNo, opening, now)
            && LockReport(l, cab, m, d.slotNo, false, opening, now).db == db
  {
    hide SlotEntry, UnlockReport;
    VerdictByHistory(start, ns, m);
    SaveAllStores(start, ns);
    var db := start.db;
    assert SetSlots(db, cab, [d][..0]) == db;
    assert SetSlots(db, cab, [d]) == SlotEntry(db, cab, d.slotNo, d.occupied, d.battery, d.lock, d.soc);
  }

  lemma {:induction false} SaveAllStores(l: Line, ns: seq<int>)
    ensures SaveAll(l, ns).db == l.db
  {
    if ns != [] { SaveAllStores(l, ns[..|ns| - 1]); }
  }

  // ---------- replayed batches ----------

  /** processOfflineReportDirect */
  function Absorb(l: Line, cab: nat, item: Item, now: int): Line {
    match item.payload
    case BatteryData(b, soc) => Effect(l, SetSoc(l.db, b, soc), item.seqNo)
    case LockData(slotNo, unlock, opening) =>
      if unlock then Effect(l, LockEffect(l.db, cab, slotNo, unlock, opening, now), item.seqNo) else l
    case SlotData(m, ds) =>
      if m <= 0 then Effect(l, SetSlots(l.db, cab, ds), item.seqNo) else SlotReport(l, cab, m, ds)
    case ForeignSlots(other, verdict, ds) =>
      if verdict.Accepted? && Registered(l, other) then l.(db := SetSlots(l.db, other, ds)) else l
    case OtherData => l
  }

  /** `last` is the loop's own copy of the cursor, read once before the loop. */
  datatype Batch = Batch(line: Line, last: int, processed: nat, skipped: nat)

  function ReplayOne(b: Batch, cab: nat, item: Item, now: int): Batch {
    if item.seqNo in b.line.offline then b.(skipped := b.skipped + 1)
    else
      var kept := b.line.(offline := b.line.offline + {item.seqNo});
      if item.seqNo <= b.last then b.(line := kept, skipped := b.skipped + 1)
      else
        var moved := kept.(cursor := item.seqNo);
        if !Registered(b.line, cab) then Batch(moved, item.seqNo, b.processed, b.skipped + 1)
        else Batch(Absorb(moved, cab, item, now), item.seqNo, b.processed + 1, b.skipped)
  }

  function ReplayAll(l: Line, cab: nat, items: seq<Item>, now: int): Batch {
    if items == [] then Batch(l, l.cursor, 0, 0)
    else ReplayOne(ReplayAll(l, cab, items[..|items| - 1], now), cab, items[|items| - 1], now)
  }

  /** OfflineReplay on a batch already in sequence order. */
  function Replay(l: Line, cab: nat, items: seq<Item>, now: int): Batch {
    var b := ReplayAll(l, cab, items, now);
    if b.processed > 0 then b.(line := b.line.(db := RecoverCabinet(b.line.db, cab, now))) else b
  }

  predicate InOrder(items: seq<Item>) {
    forall i, j | 0 <= i < j < |items| :: items[i].seqNo <= items[j].seqNo
  }

  // ---------- numbers take effect in strictly increasing order ----------

  predicate Increasing(log: seq<int>) {
    forall i, j | 0 <= i < j < |log| :: log[i] < log[j]
  }

  ghost predicate Ordered(l: Line) {
    Increasing(l.log) && l.cursor >= 0 && forall i | 0 <= i < |l.log| :: 0 < l.log[i] <= l.cursor
  }

  /** No slot report in the batch carries a number above that of the item it came in. */
  predicate Tame(items: seq<Item>) {
    forall i | 0 <= i < |items| :: items[i].payload.SlotData? ==> items[i].payload.seqNo <= items[i].seqNo
  }

  datatype Step =
    | LiveBattery(seqNo: int, battery: Option<nat>, soc: int)
    | LiveSlots(seqNo: int, details: seq<Detail>)
    | LiveHeartbeat(seqNo: int, online: bool, now: int)
    | LiveLock(seqNo: int, slotNo: nat, unlock: bool, opening: bool, now: int)
    | Replayed(items: seq<Item>, now: int)
    | Expire(live: set<int>, offline: set<int>)
    | Business(a: Action)

  function Take(l: Line, cab: nat, s: Step): Line {
    match s
    case LiveBattery(n, b, soc) => BatteryReport(l, cab, n, b, soc)
    case LiveSlots(n, ds) => SlotReport(l, cab, n, ds)
    case LiveHeartbeat(n, online, now) => HeartbeatReport(l, cab, n, online, now)
    case LiveLock(n, slotNo, unlock, opening, now) => LockReport(l, cab, n, slotNo, unlock, opening, now)
    case Replayed(items, now) => Replay(l, cab, items, now).line
    case Expire(live, offline) => l.(live := l.live - live, offline := l.offline - offline)
    case Business(a) => l.(db := Apply(l.db, a))
  }

  function TakeAll(l: Line, cab: nat, steps: seq<Step>): Line {
    if steps == [] then l else Take(TakeAll(l, cab, steps[..|steps| - 1]), cab, steps[|steps| - 1])
  }

  lemma ReplayOneOrdered(b: Batch, cab: nat, item: Item, now: int)
    requires Ordered(b.line) && b.last == b.line.cursor && Tame([item])
    ensures var b' := ReplayOne(b, cab, item, now);
            Ordered(b'.line) && b'.last == b'.line.cursor >= b.last
  {
    assert [item][0] == item;
  }

  lemma {:induction false} ReplayAllOrdered(l: Line, cab: nat, items: seq<Item>, now: int)
    requires Ordered(l) && Tame(items)
    ensures var b := ReplayAll(l, cab, items, now); Ordered(b.line) && b.last == b.line.cursor >= l.cursor
  {
    if items != [] {
      ReplayAllOrdered(l, cab, items[..|items| - 1], now);
      ReplayOneOrdered(ReplayAll(l, cab, items[..|items| - 1], now), cab, items[|items| - 1], now);
    }
  }

  predicate TameStep(s: Step) {
    (s.LiveLock? ==> !s.unlock) && (s.Replayed? ==> Tame(s.items))
  }

  /** Over any mix of live reports and replayed batches for a cabinet, even with dedup keys expiring, the numbers that
      take effect strictly increase, so each takes effect at most once, although live and replayed reports use
      different keys. The cursor never moves back. */
  lemma {:induction false} NumbersTakeEffectOnce(l: Line, cab: nat, steps: seq<Step>)
    requires Ordered(l) && forall i | 0 <= i < |steps| :: TameStep(steps[i])
    ensures var end := TakeAll(l, cab, steps);
            Ordered(end) && end.cursor >= l.cursor && l.log <= end.log
  {
    if steps != [] {
      NumbersTakeEffectOnce(l, cab, steps[..|steps| - 1]);
      StepOrdered(TakeAll(l, cab, steps[..|steps| - 1]), cab, steps[|steps| - 1]);
    }
  }

  lemma StepOrdered(l: Line, cab: nat, s: Step)
    requires Ordered(l) && TameStep(s)
    ensures var end := Take(l, cab, s); Ordered(end) && end.cursor >= l.cursor && l.log <= end.log
  {
    hide SetSoc, SetSlots, Heartbeat, LockEffect, RecoverCabinet, Apply;
    if s.Replayed? {
      ReplayAllOrdered(l, cab, s.items, s.now);
      ReplayAllAppends(l, cab, s.items, s.now);
    }
  }

  lemma {:induction false} ReplayAllAppends(l: Line, cab: nat, items: seq<Item>, now: int)
    ensures l.log <= ReplayAll(l, cab, items, now).line.log
  {
    if items != [] {
      ReplayAllAppends(l, cab, items[..|items| - 1], now);
    }
  }

  // ---------- exactly when the order holds ----------

  function Top(log: seq<int>): int { if log == [] then 0 else log[|log| - 1] }

  /** Whether the item's payload takes effect under the item's own number. */
  predicate UnderOwnNumber(x: Item) {
    || x.payload.BatteryData? || (x.payload.LockData? && x.payload.unlock)
    || (x.payload.SlotData? && x.payload.seqNo <= 0)
  }

  predicate Taken(b: Batch, x: Item) {
    x.seqNo !in b.line.offline && x.seqNo > b.last
  }

  /** A slot report whose own number is above its item's and unseen. */
  predicate RunsAhead(l: Line, x: Item) {
    x.payload.SlotData? && x.payload.seqNo > 0 && x.payload.seqNo > x.seqNo && x.payload.seqNo !in l.live
  }

  /** A number at which the item keeps the order: above the last one that took effect if it takes effect itself, under
      its own number or a nested one; not below it otherwise, because the cursor moves there. */
  predicate NumberFits(l: Line, x: Item) {
    if UnderOwnNumber(x) then Top(l.log) < x.seqNo
    else if RunsAhead(l, x) then Top(l.log) < x.payload.seqNo
    else Top(l.log) <= x.seqNo
  }

  predicate ItemFits(b: Batch, cab: nat, x: Item) {
    Taken(b, x) ==> if Registered(b.line, cab) then NumberFits(b.line, x) else Top(b.line.log) <= x.seqNo
  }

  ghost predicate OrderedAlongBatch(l: Line, cab: nat, items: seq<Item>, now: int) {
    Ordered(ReplayAll(l, cab, items, now).line) && (items == [] || OrderedAlongBatch(l, cab, items[..|items| - 1], now))
  }

  ghost predicate BatchFits(l: Line, cab: nat, items: seq<Item>, now: int) {
    items == []
    || (&& BatchFits(l, cab, items[..|items| - 1], now)
        && ItemFits(ReplayAll(l, cab, items[..|items| - 1], now), cab, items[|items| - 1]))
  }

  lemma MoreLog(log: seq<int>, n: int)
    requires Increasing(log) && (forall i | 0 <= i < |log| :: log[i] > 0) && n > 0
    ensures Increasing(log + [n]) <==> Top(log) < n
  {
    if Increasing(log + [n]) && log != [] {
      assert (log + [n])[|log| - 1] < (log + [n])[|log|];
    }
  }

  lemma OrderedByTop(l: Line)
    ensures Ordered(l) <==>
            && Increasing(l.log) && (forall i | 0 <= i < |l.log| :: l.log[i] > 0)
            && l.cursor >= 0 && Top(l.log) <= l.cursor
  {
  }

  lemma AbsorbLog(l: Line, cab: nat, x: Item, now: int)
    requires Registered(l, cab) && l.cursor == x.seqNo > 0
    ensures var l' := Absorb(l, cab, x, now);
            if UnderOwnNumber(x) then l'.log == l.log + [x.seqNo] && l'.cursor == x.seqNo
            else if RunsAhead(l, x) then l'.log == l.log + [x.payload.seqNo] && l'.cursor == x.payload.seqNo
            else l'.log == l.log && l'.cursor == x.seqNo
  {
  }

  lemma AbsorbOrderedIff(l: Line, cab: nat, x: Item, now: int)
    requires Registered(l, cab) && l.cursor == x.seqNo > 0
    requires Increasing(l.log) && forall i | 0 <= i < |l.log| :: l.log[i] > 0
    ensures Ordered(Absorb(l, cab, x, now)) <==> NumberFits(l, x)
  {
    hide Absorb, UnderOwnNumber;
    AbsorbLog(l, cab, x, now);
    OrderedByTop(Absorb(l, cab, x, now));
    MoreLog(l.log, x.seqNo);
    if RunsAhead(l, x) { MoreLog(l.log, x.payload.seqNo); }
  }

  lemma ReplayOneOrderedIff(b: Batch, cab: nat, x: Item, now: int)
    requires Ordered(b.line) && b.last >= 0
    ensures Ordered(ReplayOne(b, cab, x, now).line) <==> ItemFits(b, cab, x)
    ensures ReplayOne(b, cab, x, now).last >= 0
  {
    hide Absorb, UnderOwnNumber;
    if Taken(b, x) {
      var moved := b.line.(offline := b.line.offline + {x.seqNo}, cursor := x.seqNo);
      OrderedByTop(moved);
      if Registered(b.line, cab) { AbsorbOrderedIff(moved, cab, x, now); }
    }
  }

  lemma {:induction false} BatchOrderedIff(l: Line, cab: nat, items: seq<Item>, now: int)
    requires Ordered(l)
    ensures ReplayAll(l, cab, items, now).last >= 0
    ensures OrderedAlongBatch(l, cab, items, now) <==> BatchFits(l, cab, items, now)
  {
    if items != [] {
      var init, x := items[..|items| - 1], items[|items| - 1];
      BatchOrderedIff(l, cab, init, now);
      if OrderedAlongBatch(l, cab, init, now) { ReplayOneOrderedIff(ReplayAll(l, cab, init, now), cab, x, now); }
    }
  }

  /** An unlock report must be accepted, or carry a number that is not positive or lies between the last one that took
      effect and the cursor; a batch must fit item by item; every other step fits. */
  ghost predicate StepFits(l: Line, cab: nat, s: Step) {
    match s
    case LiveLock(n, _, unlock, _, _) =>
      !unlock || !Registered(l, cab) || n <= 0 || Save(l, n).1.Accepted? || Top(l.log) < n <= l.cursor
    case Replayed(items, now) => BatchFits(l, cab, items, now)
    case _ => true
  }

  ghost predicate OrderedAlongStep(l: Line, cab: nat, s: Step) {
    Ordered(Take(l, cab, s)) && (s.Replayed? ==> OrderedAlongBatch(l, cab, s.items, s.now))
  }

  lemma LockOrderedIff(l: Line, cab: nat, s: Step)
    requires Ordered(l) && s.LiveLock?
    ensures Ordered(Take(l, cab, s)) <==> StepFits(l, cab, s)
  {
    OrderedByTop(l);
    OrderedByTop(Take(l, cab, s));
    if s.seqNo > 0 { MoreLog(l.log, s.seqNo); }
  }

  lemma StepOrderedIff(l: Line, cab: nat, s: Step)
    requires Ordered(l)
    ensures OrderedAlongStep(l, cab, s) <==> StepFits(l, cab, s)
  {
    if s.Replayed? {
      BatchOrderedIff(l, cab, s.items, s.now);
      assert OrderedAlongBatch(l, cab, s.items, s.now) ==> Ordered(ReplayAll(l, cab, s.items, s.now).line);
    } else if s.LiveLock? {
      LockOrderedIff(l, cab, s);
    } else {
      StepOrdered(l, cab, s);
    }
  }

  ghost predicate OrderedAlong(l: Line, cab: nat, steps: seq<Step>) {
    steps == []
    || (&& OrderedAlong(l, cab, steps[..|steps| - 1])
        && OrderedAlongStep(TakeAll(l, cab, steps[..|steps| - 1]), cab, steps[|steps| - 1]))
  }

  ghost predicate FitsAlong(l: Line, cab: nat, steps: seq<Step>) {
    steps == []
    || (&& FitsAlong(l, cab, steps[..|steps| - 1])
        && StepFits(TakeAll(l, cab, steps[..|steps| - 1]), cab, steps[|steps| - 1]))
  }

  /** Over any steps, lock reports and untame batches included, the numbers that take effect increase and stay within
      the cursor, item by item, if and only if every step fits when it is taken. */
  lemma {:induction false} NumbersIncreaseIff(l: Line, cab: nat, steps: seq<Step>)
    requires Ordered(l)
    ensures OrderedAlong(l, cab, steps) <==> FitsAlong(l, cab, steps)
    ensures OrderedAlong(l, cab, steps) ==> Ordered(TakeAll(l, cab, steps))
  {
    if steps != [] {
      NumbersIncreaseIff(l, cab, steps[..|steps| - 1]);
      if OrderedAlong(l, cab, steps[..|steps| - 1]) {
        StepOrderedIff(TakeAll(l, cab, steps[..|steps| - 1]), cab, steps[|steps| - 1]);
      }
    }
  }

  /** A slot report replayed under its own or an earlier positive number is stored but never takes effect: the loop has
      moved the cursor past it. */
  lemma NestedNumbersAreSwallowed(b: Batch, cab: nat, n: int, m: int, ds: seq<Detail>, now: int)
    requires 0 < m <= n
    ensures ReplayOne(b, cab, Item(n, SlotData(m, ds)), now).line.db == b.line.db
    ensures ReplayOne(b, cab, Item(n, SlotData(m, ds)), now).line.log == b.line.log
  {
  }

  /** A slot report numbered above its item, with a later item in between: the later item takes effect after it and
      moves the cursor back. */
  lemma NestedNumberMovesCursorBack(l: Line, cab: nat, a: int, m: int, ds: seq<Detail>, b: int, soc: int, now: int)
    requires Registered(l, cab) && 0 <= l.cursor < a < b <= m && m !in l.live && a !in l.offline && b !in l.offline
    requires |l.db.batteries| > 0
    ensures var items := [Item(a, SlotData(m, ds)), Item(b, BatteryData(Some(0), soc))];
            var end := ReplayAll(l, cab, items, now);
            && InOrder(items) && end.processed == 2
            && ReplayAll(l, cab, items[..1], now).line.cursor == m && end.line.cursor == b
            && end.line.log == l.log + [m, b] && !Increasing(end.line.log)
  {
    var x, y := Item(a, SlotData(m, ds)), Item(b, BatteryData(Some(0), soc));
    ReplayTwo(l, cab, x, y, now);
    SetSlotsKeepsCabinets(l.db, cab, ds);
    var log := ReplayAll(l, cab, [x, y], now).line.log;
    assert log == l.log + [m, b] && log[|l.log|] == m && log[|l.log| + 1] == b;
  }

  lemma ReplayTwo(l: Line, cab: nat, x: Item, y: Item, now: int)
    ensures [x, y][..1] == [x]
    ensures ReplayAll(l, cab, [x], now) == ReplayOne(Batch(l, l.cursor, 0, 0), cab, x, now)
    ensures ReplayAll(l, cab, [x, y], now) == ReplayOne(ReplayAll(l, cab, [x], now), cab, y, now)
  {
    assert [x, y][..1] == [x] && [x][..0] == [];
    assert ReplayAll(l, cab, [], now) == Batch(l, l.cursor, 0, 0);
  }

  lemma {:induction false} SetSlotsKeepsCabinets(db: Db, cab: nat, ds: seq<Detail>)
    ensures SetSlots(db, cab, ds).cabinets == db.cabinets
  {
    if ds != [] {
      SetSlotsKeepsCabinets(db, cab, ds[..|ds| - 1]);
    }
  }

  /** An unlock report sent twice is refused as a duplicate the second time and takes effect all the same: its unlock is
      carried out on the tables twice. */
  lemma LockReportsRepeat(l: Line, cab: nat, n: int, slotNo: nat, opening: bool, now: int, again: int)
    requires Registered(l, cab) && n > 0
    ensures var once := LockReport(l, cab, n, slotNo, true, opening, now);
            var twice := LockReport(once, cab, n, slotNo, true, opening, again);
            && Save(once, n).1.Duplicate?
            && once.db == UnlockReport(l.db, cab, slotNo, opening, now)
            && twice.db == UnlockReport(once.db, cab, slotNo, opening, again)
            && twice.log == l.log + [n, n] && twice.cursor == once.cursor
  {
    LockEffectKeeps(l.db, cab, slotNo, true, opening, now);
  }

  lemma LockEffectKeeps(db: Db, cab: nat, slotNo: nat, unlock: bool, opening: bool, now: int)
    ensures var end := LockEffect(db, cab, slotNo, unlock, opening, now);
            end.cabinets == db.cabinets && end.batteries == db.batteries
  {
    UnlockReportKeeps(db, cab, slotNo, opening, now);
  }

  /** What no unlock report touches. */
  lemma UnlockReportKeeps(db: Db, cab: nat, slotNo: nat, opening: bool, now: int)
    ensures var end := UnlockReport(db, cab, slotNo, opening, now);
            end.cabinets == db.cabinets && end.batteries == db.batteries
  {
    var k := FindSlot(db.slots, cab, slotNo);
    if k.Some? {
      UnlockLoopKeeps(ConfirmUnlock(db, k.value), cab, k.value, |db.orders|, now);
      FailLoopRewrites(db, cab, k.value, |db.orders|, now);
    }
  }

  lemma {:induction false} UnlockLoopKeeps(db: Db, cab: nat, k: nat, n: nat, now: int)
    ensures var end := UnlockLoop(db, cab, k, n, now); end.cabinets == db.cabinets && end.batteries == db.batteries
    decreases n
  {
    hide AwaitsUnlock;
    if n > 0 {
      var next := if n <= |db.orders| && AwaitsUnlock(db.orders[n - 1], cab, k)
                  then OrKeep(DecideOne(db, n - 1, 48 * 3600, now), db) else db;
      UnlockLoopKeeps(next, cab, k, n - 1, now);
    }
  }

  lemma {:induction false} RecoveryLoopKeeps(db: Db, cab: nat, n: nat, now: int)
    ensures var end := RecoveryLoop(db, cab, n, now); end.batteries == db.batteries && end.cabinets == db.cabinets
    decreases n
  {
    if n > 0 {
      var next := if n <= |db.orders| && AwaitsRecovery(db.orders[n - 1], cab)
                  then OrKeep(DecideOne(db, n - 1, 24 * 3600, now), db) else db;
      RecoveryLoopKeeps(next, cab, n - 1, now);
    }
  }

  lemma {:induction false} UnprocessedStoresNothing(l: Line, cab: nat, items: seq<Item>, now: int)
    ensures var b := ReplayAll(l, cab, items, now); b.processed == 0 ==> b.line.db == l.db
  {
    if items != [] { UnprocessedStoresNothing(l, cab, items[..|items| - 1], now); }
  }

  /** A batch takes its cabinet out of being offline if and only if one of its items is processed; otherwise it leaves
      the tables as they are. */
  lemma BatchRecoversIffProcessed(l: Line, cab: nat, items: seq<Item>, now: int)
    requires cab < |l.db.cabinets| && l.db.cabinets[cab].status == Offline
    ensures var r := Replay(l, cab, items, now);
            && (r.processed == 0 <==> cab < |r.line.db.cabinets| && r.line.db.cabinets[cab].status == Offline)
            && (r.processed == 0 ==> r.line.db == l.db)
  {
    UnprocessedStoresNothing(l, cab, items, now);
    var db := ReplayAll(l, cab, items, now).line.db;
    RecoveryLoopKeeps(SetCabinet(db, cab, Cabinet(Online, Some(now))), cab, |db.orders|, now);
  }
}
