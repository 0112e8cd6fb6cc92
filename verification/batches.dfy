/** What a replayed batch comes to, whatever order it arrived in. */
module Batches {
  import opened Models
  import opened Handlers
  import opened Ingestion

  // ---------- arrival order ----------

  /** What sorting a batch may leave: items of one number may come out in any order. */
  ghost predicate Arranges(items: seq<Item>, sorted: seq<Item>) {
    InOrder(sorted) && multiset(sorted) == multiset(items)
  }

  /** Items of one number are the same item. */
  predicate TiesAgree(items: seq<Item>) {
    forall x, y | x in items && y in items && x.seqNo == y.seqNo :: x == y
  }

  function InsertSorted(x: Item, sorted: seq<Item>): (r: seq<Item>)
    requires InOrder(sorted)
    ensures InOrder(r) && multiset(r) == multiset{x} + multiset(sorted)
    ensures forall y | y in r :: y == x || y in sorted
  {
    if sorted == [] || x.seqNo <= sorted[0].seqNo then [x] + sorted
    else
      var rest := InsertSorted(x, sorted[1..]);
      assert sorted == [sorted[0]] + sorted[1..];
      assert forall k | 0 <= k < |rest| :: rest[k] == x || rest[k] in sorted[1..];
      [sorted[0]] + rest
  }

  function Sorted(items: seq<Item>): (r: seq<Item>)
    ensures InOrder(r) && multiset(r) == multiset(items)
  {
    if items == [] then []
    else
      assert items == [items[0]] + items[1..];
      InsertSorted(items[0], Sorted(items[1..]))
  }

  lemma WithoutLast(a: seq<Item>)
    requires a != []
    ensures multiset(a[..|a| - 1]) == multiset(a) - multiset{a[|a| - 1]}
  {
    assert a == a[..|a| - 1] + [a[|a| - 1]];
  }

  lemma LastIsLargest(items: seq<Item>, x: Item)
    requires items != [] && InOrder(items) && x in items
    ensures x.seqNo <= items[|items| - 1].seqNo
  {
  }

  lemma SameLast(a: seq<Item>, b: seq<Item>)
    requires multiset(a) == multiset(b) && InOrder(a) && InOrder(b) && TiesAgree(a) && a != [] && b != []
    ensures a[|a| - 1] == b[|b| - 1]
  {
    var x, y := a[|a| - 1], b[|b| - 1];
    assert x in multiset(b) && y in multiset(a);
    LastIsLargest(a, y);
    LastIsLargest(b, x);
  }

  lemma SameInit(a: seq<Item>, b: seq<Item>)
    requires multiset(a) == multiset(b) && InOrder(a) && InOrder(b) && TiesAgree(a) && a != [] && b != []
    ensures multiset(a[..|a| - 1]) == multiset(b[..|b| - 1]) && TiesAgree(a[..|a| - 1])
    ensures InOrder(a[..|a| - 1]) && InOrder(b[..|b| - 1])
  {
    SameLast(a, b);
    WithoutLast(a);
    WithoutLast(b);
    assert forall x | x in a[..|a| - 1] :: x in a;
  }

  lemma {:induction false} OneArrangement(a: seq<Item>, b: seq<Item>)
    requires multiset(a) == multiset(b) && InOrder(a) && InOrder(b) && TiesAgree(a)
    ensures a == b
  {
    assert |multiset(a)| == |a| && |multiset(b)| == |b|;
    if a != [] {
      SameLast(a, b);
      SameInit(a, b);
      OneArrangement(a[..|a| - 1], b[..|b| - 1]);
      assert a == a[..|a| - 1] + [a[|a| - 1]] && b == b[..|b| - 1] + [b[|b| - 1]];
    }
  }

  lemma TiesAgreeArranged(items: seq<Item>, s: seq<Item>)
    requires multiset(s) == multiset(items) && TiesAgree(items)
    ensures TiesAgree(s)
  {
    forall x, y | x in s && y in s && x.seqNo == y.seqNo ensures x == y {
      assert x in multiset(items) && y in multiset(items);
    }
  }

  /** Two arrival orders of one batch, sorted in any way, replay to the same tables, keys, cursor and counts, provided
      items of one number are the same item. */
  lemma ArrivalOrderDoesNotMatter(l: Line, cab: nat, a: seq<Item>, b: seq<Item>, s: seq<Item>, t: seq<Item>, now: int)
    requires multiset(a) == multiset(b) && TiesAgree(a) && Arranges(a, s) && Arranges(b, t)
    ensures Replay(l, cab, s, now) == Replay(l, cab, t, now)
  {
    TiesAgreeArranged(a, s);
    OneArrangement(s, t);
  }

  function FirstOf(items: seq<Item>, n: int): (r: Option<Item>)
    ensures r.Some? ==> r.value in items && r.value.seqNo == n
  {
    if items == [] then None
    else
      var before, x := FirstOf(items[..|items| - 1], n), items[|items| - 1];
      if before.Some? then before else if x.seqNo == n then Some(x) else None
  }

  lemma {:induction false} FirstOfConcat(a: seq<Item>, b: seq<Item>, n: int)
    ensures FirstOf(a + b, n) == if FirstOf(a, n).Some? then FirstOf(a, n) else FirstOf(b, n)
  {
    if b == [] {
      assert a + b == a;
    } else {
      assert (a + b)[..|a + b| - 1] == a + b[..|b| - 1];
      FirstOfConcat(a, b[..|b| - 1], n);
    }
  }

  lemma FirstOfOne(x: Item, n: int)
    ensures FirstOf([x], n) == if x.seqNo == n then Some(x) else None
  {
    assert [x][..0] == [];
  }

  lemma {:induction false} InsertedComesFirst(x: Item, sorted: seq<Item>)
    requires InOrder(sorted)
    ensures FirstOf(InsertSorted(x, sorted), x.seqNo) == Some(x)
  {
    FirstOfOne(x, x.seqNo);
    if sorted == [] || x.seqNo <= sorted[0].seqNo {
      FirstOfConcat([x], sorted, x.seqNo);
    } else {
      InsertedComesFirst(x, sorted[1..]);
      FirstOfOne(sorted[0], x.seqNo);
      FirstOfConcat([sorted[0]], InsertSorted(x, sorted[1..]), x.seqNo);
    }
  }

  /** An arrangement that puts x before the other items of its number. */
  lemma ArrangedFirst(items: seq<Item>, x: Item) returns (s: seq<Item>)
    requires x in items
    ensures Arranges(items, s) && FirstOf(s, x.seqNo) == Some(x)
  {
    var i :| 0 <= i < |items| && items[i] == x;
    var rest := items[..i] + items[i + 1..];
    assert items == items[..i] + [x] + items[i + 1..];
    s := InsertSorted(x, Sorted(rest));
    InsertedComesFirst(x, Sorted(rest));
  }

  /** A batch has one sorted arrangement if and only if items of one number are the same item. */
  lemma OneArrangementIffTiesAgree(items: seq<Item>)
    ensures (forall s, t | Arranges(items, s) && Arranges(items, t) :: s == t) <==> TiesAgree(items)
  {
    if TiesAgree(items) {
      forall s, t | Arranges(items, s) && Arranges(items, t) ensures s == t {
        TiesAgreeArranged(items, s);
        OneArrangement(s, t);
      }
    } else {
      var x, y :| x in items && y in items && x.seqNo == y.seqNo && x != y;
      var s := ArrangedFirst(items, x);
      var t := ArrangedFirst(items, y);
      assert s != t;
    }
  }

  // ---------- readings of one number ----------

  predicate Readings(items: seq<Item>) {
    forall x | x in items :: x.payload.BatteryData? && x.payload.battery.Some?
  }

  /** From every state of the service, all arrangements of the batch replay alike. */
  ghost predicate OrderFree(items: seq<Item>) {
    forall l: Line, cab: nat, now: int, s: seq<Item>, t: seq<Item> | Arranges(items, s) && Arranges(items, t) ::
      Replay(l, cab, s, now) == Replay(l, cab, t, now)
  }

  /** Only number n is new: the first item of that number takes effect and no other. */
  lemma {:induction false} OnlyFirstTakesEffect(l: Line, cab: nat, s: seq<Item>, n: int, now: int)
    requires Registered(l, cab) && l.cursor == n - 1 && n !in l.offline && Readings(s)
    requires forall x | x in s && x.seqNo != n :: x.seqNo in l.offline
    ensures var b := ReplayAll(l, cab, s, now);
            match FirstOf(s, n)
            case None => b.line == l && b.last == n - 1
            case Some(x) =>
              && x.payload.BatteryData? && b.line.db == SetSoc(l.db, x.payload.battery, x.payload.soc)
              && b.last == n && b.line.offline == l.offline + {n}
  {
    if s != [] {
      var init, x := s[..|s| - 1], s[|s| - 1];
      assert x in s && forall y | y in init :: y in s;
      OnlyFirstTakesEffect(l, cab, init, n, now);
    }
  }

  /** Cabinet 0 is online, the batteries show a charge nobody reports, and only number n is new. */
  function Probe(items: seq<Item>, n: int, soc: int, batteries: nat): Line {
    var db := Db([], [Cabinet(Online, None)], [], seq(batteries, _ => Battery(InCabinet, None, soc)), [], [], [],
        map[], [],
                 [], {}, 0);
    Line(db, n - 1, {}, Numbers(items) - {n}, [])
  }

  function Numbers(items: seq<Item>): set<int> { set i | 0 <= i < |items| :: items[i].seqNo }

  lemma ProbeReplays(items: seq<Item>, s: seq<Item>, x: Item, soc: int, batteries: nat)
    requires Readings(items) && x in items && Arranges(items, s) && FirstOf(s, x.seqNo) == Some(x)
    ensures var l := Probe(items, x.seqNo, soc, batteries);
            Replay(l, 0, s, 0).line.db == SetSoc(l.db, x.payload.battery, x.payload.soc)
  {
    var l := Probe(items, x.seqNo, soc, batteries);
    forall y | y in s ensures y.payload.BatteryData? && y.payload.battery.Some? && y.seqNo in Numbers(items) {
      assert y in multiset(s) && y in multiset(items);
    }
    OnlyFirstTakesEffect(l, 0, s, x.seqNo, 0);
  }

  lemma TieTells(items: seq<Item>, x: Item, y: Item)
    requires Readings(items) && x in items && y in items && x.seqNo == y.seqNo && x != y
    ensures !OrderFree(items)
  {
    var s := ArrangedFirst(items, x);
    var t := ArrangedFirst(items, y);
    var b, soc := x.payload.battery.value, x.payload.soc + 1;
    ProbeReplays(items, s, x, soc, b + 1);
    ProbeReplays(items, t, y, soc, b + 1);
    var l := Probe(items, x.seqNo, soc, b + 1);
    assert Replay(l, 0, s, 0).line.db.batteries[b].soc == x.payload.soc;
    assert Replay(l, 0, t, 0).line.db.batteries[b].soc != x.payload.soc;
  }

  /** A batch of battery readings replays alike in every arrival order if and only if readings of one number are the
      same: the sort leaves ties in no particular order, and only the first of them takes effect. */
  lemma ReadingsOrderFreeIffTiesAgree(items: seq<Item>)
    requires Readings(items)
    ensures OrderFree(items) <==> TiesAgree(items)
  {
    if TiesAgree(items) {
      forall l: Line, cab: nat, now: int, s: seq<Item>, t: seq<Item> | Arranges(items, s) && Arranges(items, t)
        ensures Replay(l, cab, s, now) == Replay(l, cab, t, now)
      {
        ArrivalOrderDoesNotMatter(l, cab, items, items, s, t, now);
      }
    } else {
      var x, y :| x in items && y in items && x.seqNo == y.seqNo && x != y;
      TieTells(items, x, y);
    }
  }

  // ---------- what is applied ----------

  /** The items that count: the first of their number, unseen by the replay, above the cursor. */
  function Fresh(l: Line, items: seq<Item>): seq<Item> {
    if items == [] then []
    else
      var init, x := items[..|items| - 1], items[|items| - 1];
      if x.seqNo !in l.offline + Numbers(init) && x.seqNo > l.cursor then Fresh(l, init) + [x] else Fresh(l, init)
  }

  function LastNumber(l: Line, items: seq<Item>): int {
    var taken := Fresh(l, items);
    if taken == [] then l.cursor else taken[|taken| - 1].seqNo
  }

  /** Live keys that slot reports of their own positive number leave. */
  function Nested(items: seq<Item>): set<int> {
    set i | 0 <= i < |items| && items[i].payload.SlotData? && items[i].payload.seqNo > 0 :: items[i].payload.seqNo
  }

  /** The cursor ends at the last fresh number, unless that item is a slot report with a higher number of its own that
      had not been seen: then it ends there. */
  function CursorAfter(l: Line, items: seq<Item>): int {
    var taken := Fresh(l, items);
    if taken == [] then l.cursor
    else
      var x, before := taken[|taken| - 1], taken[..|taken| - 1];
      if RunsAhead(l.(live := l.live + Nested(before)), x) then x.payload.seqNo else x.seqNo
  }

  lemma {:induction false} FreshIsFresh(l: Line, items: seq<Item>)
    ensures forall n :: n in Numbers(Fresh(l, items)) <==> n in Numbers(items) && n !in l.offline && n > l.cursor
    ensures forall x :: x in Fresh(l, items) ==> x in items && x.seqNo > l.cursor
  {
    if items != [] {
      var init, x := items[..|items| - 1], items[|items| - 1];
      FreshIsFresh(l, init);
      NumbersStep(init, x);
      NumbersStep(Fresh(l, init), x);
      assert items == init + [x];
    }
  }

  lemma NumbersStep(init: seq<Item>, x: Item)
    ensures Numbers(init + [x]) == Numbers(init) + {x.seqNo}
  {
    assert forall i | 0 <= i < |init| :: (init + [x])[i] == init[i];
    assert (init + [x])[|init|] == x;
  }

  function NestedIn(x: Item): set<int> {
    if x.payload.SlotData? && x.payload.seqNo > 0 then {x.payload.seqNo} else {}
  }

  lemma NestedStep(init: seq<Item>, x: Item)
    ensures Nested(init + [x]) == Nested(init) + NestedIn(x)
  {
    assert forall i | 0 <= i < |init| :: (init + [x])[i] == init[i];
    assert (init + [x])[|init|] == x;
  }

  lemma NumbersUpTo(items: seq<Item>)
    requires InOrder(items) && items != []
    ensures forall n :: n in Numbers(items) ==> n <= items[|items| - 1].seqNo
  {
  }

  /** The last fresh number is the greatest there is among the fresh, or the old cursor. */
  lemma LastIsGreatest(l: Line, items: seq<Item>)
    requires InOrder(items)
    ensures l.cursor <= LastNumber(l, items)
    ensures forall n :: n in Numbers(Fresh(l, items)) ==> n <= LastNumber(l, items)
    decreases |items|
  {
    FreshIsFresh(l, items);
    if items != [] {
      var init, x := items[..|items| - 1], items[|items| - 1];
      if Fresh(l, items) == Fresh(l, init) {
        LastIsGreatest(l, init);
      } else {
        assert LastNumber(l, items) == x.seqNo;
        NumbersUpTo(items);
      }
    }
  }

  ghost predicate Counted(l: Line, cab: nat, b: Batch, items: seq<Item>) {
    && b.processed == (if Registered(l, cab) then |Fresh(l, items)| else 0)
    && b.processed + b.skipped == |items|
    && b.last == LastNumber(l, items)
    && b.line.offline == l.offline + Numbers(items)
    && b.line.live == (if Registered(l, cab) then l.live + Nested(Fresh(l, items)) else l.live)
    && b.line.cursor == (if Registered(l, cab) then CursorAfter(l, items) else LastNumber(l, items))
    && b.line.db.cabinets == l.db.cabinets
  }

  lemma TakenIffFresh(l: Line, cab: nat, init: seq<Item>, x: Item, b: Batch)
    requires InOrder(init + [x]) && Counted(l, cab, b, init)
    ensures Taken(b, x) <==> x.seqNo !in l.offline + Numbers(init) && x.seqNo > l.cursor
    ensures Fresh(l, init + [x]) == if Taken(b, x) then Fresh(l, init) + [x] else Fresh(l, init)
  {
    var all := init + [x];
    assert all[..|all| - 1] == init && all[|init|] == x;
    assert InOrder(init) by { assert forall i | 0 <= i < |init| :: all[i] == init[i]; }
    LastIsGreatest(l, init);
    FreshIsFresh(l, init);
    if Fresh(l, init) != [] {
      var y := Fresh(l, init)[|Fresh(l, init)| - 1];
      var i :| 0 <= i < |init| && init[i] == y;
      assert all[i] == y && init[i].seqNo in Numbers(init);
    }
  }

  lemma AbsorbKeeps(l: Line, cab: nat, item: Item, now: int)
    requires Registered(l, cab) && l.cursor == item.seqNo
    ensures var l' := Absorb(l, cab, item, now);
            && l'.offline == l.offline && l'.db.cabinets == l.db.cabinets
            && l'.live == l.live + Nested([item])
            && l'.cursor == if RunsAhead(l, item) then item.payload.seqNo else item.seqNo
  {
    assert Nested([item]) == NestedIn(item) by {
      NestedStep([], item);
      assert [] + [item] == [item];
    }
    match item.payload
    case SlotData(m, ds) => SetSlotsKeepsCabinets(l.db, cab, ds);
    case ForeignSlots(other, _, ds) => SetSlotsKeepsCabinets(l.db, other, ds);
    case LockData(slotNo, unlock, opening) => LockEffectKeeps(l.db, cab, slotNo, unlock, opening, now);
    case _ =>
  }

  lemma AfterMore(l: Line, all: seq<Item>, taken: seq<Item>, x: Item)
    requires Fresh(l, all) == taken + [x]
    ensures LastNumber(l, all) == x.seqNo && |Fresh(l, all)| == |taken| + 1
    ensures Nested(Fresh(l, all)) == Nested(taken) + Nested([x])
    ensures CursorAfter(l, all)
         == if RunsAhead(l.(live := l.live + Nested(taken)), x) then x.payload.seqNo else x.seqNo
  {
    assert (taken + [x])[..|taken|] == taken;
    NestedStep(taken, x);
    NestedStep([], x);
    assert [] + [x] == [x];
  }

  lemma TakenStep(l: Line, cab: nat, init: seq<Item>, x: Item, b: Batch, now: int)
    requires Registered(l, cab) && Counted(l, cab, b, init) && Taken(b, x)
    requires Fresh(l, init + [x]) == Fresh(l, init) + [x]
    ensures Counted(l, cab, ReplayOne(b, cab, x, now), init + [x])
  {
    AfterMore(l, init + [x], Fresh(l, init), x);
    NumbersStep(init, x);
    AbsorbKeeps(b.line.(offline := b.line.offline + {x.seqNo}, cursor := x.seqNo), cab, x, now);
  }

  lemma CountedStep(l: Line, cab: nat, init: seq<Item>, x: Item, b: Batch, now: int)
    requires InOrder(init + [x]) && Counted(l, cab, b, init)
    ensures Counted(l, cab, ReplayOne(b, cab, x, now), init + [x])
  {
    TakenIffFresh(l, cab, init, x, b);
    NumbersStep(init, x);
    if Taken(b, x) && Registered(l, cab) {
      TakenStep(l, cab, init, x, b, now);
    }
  }

  /** Any batch: processed plus skipped is its size; the items processed are the fresh ones, or none if the cabinet is
      unknown; every number is remembered; nested numbers are remembered as live ones; the cursor ends at the greatest
      fresh number, at a higher unseen number nested in that item, or where it was. */
  lemma {:induction false} BatchCounts(l: Line, cab: nat, items: seq<Item>, now: int)
    requires InOrder(items)
    ensures Counted(l, cab, ReplayAll(l, cab, items, now), items)
  {
    if items == [] {
      assert Numbers(items) == {} && Nested(items) == {};
    } else {
      var init, x := items[..|items| - 1], items[|items| - 1];
      assert items == init + [x];
      BatchCounts(l, cab, init, now);
      CountedStep(l, cab, init, x, ReplayAll(l, cab, init, now), now);
    }
  }

  /** In whatever order the items come. */
  lemma {:induction false} EveryItemIsCounted(l: Line, cab: nat, items: seq<Item>, now: int)
    ensures var b := Replay(l, cab, items, now); b.processed + b.skipped == |items|
  {
    if items != [] {
      EveryItemIsCounted(l, cab, items[..|items| - 1], now);
    }
  }

  // ---------- the charge a battery ends up with ----------

  predicate Charges(x: Item, b: nat) {
    x.payload.BatteryData? && x.payload.battery == Some(b)
  }

  predicate Mentions(ds: seq<Detail>, b: nat) {
    exists i | 0 <= i < |ds| :: ds[i].battery == Some(b)
  }

  /** A slot report that may take effect and names the battery; a number at or below the item's never does. */
  predicate SlotNames(x: Item, b: nat) {
    match x.payload
    case SlotData(m, ds) => !(0 < m <= x.seqNo) && Mentions(ds, b)
    case ForeignSlots(_, verdict, ds) => verdict.Accepted? && Mentions(ds, b)
    case _ => false
  }

  /** The charge the last fresh reading of the battery reports, if there is one. */
  function NewSoc(l: Line, items: seq<Item>, b: nat): int
    requires b < |l.db.batteries|
  {
    var taken := Fresh(l, items);
    match Last(taken, (x: Item) => Charges(x, b))
    case None => l.db.batteries[b].soc
    case Some(j) => taken[j].payload.soc
  }

  lemma LastOfMore(taken: seq<Item>, x: Item, b: nat)
    ensures Last(taken + [x], (y: Item) => Charges(y, b))
         == if Charges(x, b) then Some(|taken|) else Last(taken, (y: Item) => Charges(y, b))
  {
    assert (taken + [x])[..|taken + [x]| - 1] == taken;
  }

  lemma {:induction false} SetSlotsKeepsSoc(db: Db, cab: nat, ds: seq<Detail>, b: nat)
    requires b < |db.batteries| && !Mentions(ds, b)
    ensures var end := SetSlots(db, cab, ds); b < |end.batteries| && end.batteries[b].soc == db.batteries[b].soc
  {
    if ds != [] {
      var init := ds[..|ds| - 1];
      assert forall i | 0 <= i < |init| :: init[i] == ds[i];
      SetSlotsKeepsSoc(db, cab, init, b);
    }
  }

  lemma SocOne(b: Batch, cab: nat, x: Item, now: int, v: nat)
    requires Registered(b.line, cab) && v < |b.line.db.batteries| && !(Taken(b, x) && SlotNames(x, v))
    ensures var db := ReplayOne(b, cab, x, now).line.db;
            && v < |db.batteries|
            && db.batteries[v].soc
               == if Taken(b, x) && Charges(x, v) then x.payload.soc else b.line.db.batteries[v].soc
  {
    match x.payload
    case LockData(slotNo, unlock, opening) => LockEffectKeeps(b.line.db, cab, slotNo, unlock, opening, now);
    case SlotData(m, ds) => if !Mentions(ds, v) { SetSlotsKeepsSoc(b.line.db, cab, ds, v); }
    case ForeignSlots(other, _, ds) => if !Mentions(ds, v) { SetSlotsKeepsSoc(b.line.db, other, ds, v); }
    case _ =>
  }

  ghost predicate Unnamed(l: Line, items: seq<Item>, v: nat) {
    forall x | x in Fresh(l, items) :: !SlotNames(x, v)
  }

  lemma UnknownCabinet(b: Batch, cab: nat, x: Item, now: int)
    requires !Registered(b.line, cab)
    ensures ReplayOne(b, cab, x, now).line.db == b.line.db
  {
  }

  ghost predicate SocIs(l: Line, cab: nat, b: Batch, items: seq<Item>, v: nat)
    requires v < |l.db.batteries|
  {
    && v < |b.line.db.batteries|
    && b.line.db.batteries[v].soc == if Registered(l, cab) then NewSoc(l, items, v) else l.db.batteries[v].soc
  }

  lemma SocStep(l: Line, cab: nat, init: seq<Item>, x: Item, b: Batch, now: int, v: nat)
    requires Counted(l, cab, b, init) && v < |l.db.batteries| && SocIs(l, cab, b, init, v)
    requires Fresh(l, init + [x]) == if Taken(b, x) then Fresh(l, init) + [x] else Fresh(l, init)
    requires Taken(b, x) ==> !SlotNames(x, v)
    ensures SocIs(l, cab, ReplayOne(b, cab, x, now), init + [x], v)
  {
    hide ReplayOne, SlotNames, Fresh, Taken;
    if Registered(l, cab) { SocOne(b, cab, x, now, v); } else { UnknownCabinet(b, cab, x, now); }
    LastOfMore(Fresh(l, init), x, v);
  }

  lemma {:induction false} BatchSoc(l: Line, cab: nat, items: seq<Item>, now: int, v: nat)
    requires InOrder(items) && v < |l.db.batteries| && Unnamed(l, items, v)
    ensures SocIs(l, cab, ReplayAll(l, cab, items, now), items, v)
  {
    hide ReplayOne, SlotNames;
    if items != [] {
      var init, x := items[..|items| - 1], items[|items| - 1];
      var b := ReplayAll(l, cab, init, now);
      assert items == init + [x];
      BatchCounts(l, cab, init, now);
      TakenIffFresh(l, cab, init, x, b);
      assert forall y | y in Fresh(l, init) :: y in Fresh(l, items);
      assert Taken(b, x) ==> x in Fresh(l, items);
      BatchSoc(l, cab, init, now, v);
      SocStep(l, cab, init, x, b, now, v);
    }
  }

  /** After OfflineReplay a battery shows the charge of its fresh reading with the highest number, unless a fresh slot
      report names it too; recovery does not touch it, and an unknown cabinet's batch changes nothing. */
  lemma ReplayedChargesAreLatest(l: Line, cab: nat, items: seq<Item>, now: int, v: nat)
    requires InOrder(items) && v < |l.db.batteries| && Unnamed(l, items, v)
    ensures var db := Replay(l, cab, items, now).line.db;
            && v < |db.batteries|
            && db.batteries[v].soc == if Registered(l, cab) then NewSoc(l, items, v) else l.db.batteries[v].soc
  {
    BatchSoc(l, cab, items, now, v);
    var db := ReplayAll(l, cab, items, now).line.db;
    RecoveryLoopKeeps(SetCabinet(db, cab, Cabinet(Online, Some(now))), cab, |db.orders|, now);
  }
}
