/** The report handlers of one cabinet as the service runs them, over the store and the cabinet's Redis keys. */
module Reporting {
  import opened Models
  import opened Transactions
  import opened Handlers
  import opened Ingestion
  import opened Service

  /** The key under which an automatic return report is remembered. */
  datatype ReturnKey = ReturnKey(cab: nat, slotNo: nat, seqNo: int)

  class ReturnService {
    const store: Store
    var seen: set<ReturnKey>

    constructor (store: Store)
      ensures this.store == store && seen == {}
    {
      this.store, seen := store, {};
    }

    /** A report with a positive number is looked at once, whatever comes of it. */
    method DetectBatteryReturn(seqNo: int, cab: nat, slotNo: nat, b: nat, soc: int, tempOk: bool, now: int)
      returns (ok: bool)
      modifies this, store
      ensures var key := ReturnKey(cab, slotNo, seqNo);
              var repeated := seqNo > 0 && key in old(seen);
              var r := if repeated then None else DetectReturn(old(store.Rows()), cab, slotNo, b, soc, tempOk, now);
              && ok == r.Some? && store.Rows() == OrKeep(r, old(store.Rows()))
              && seen == old(seen) + (if seqNo > 0 then {key} else {})
    {
      if seqNo > 0 {
        if ReturnKey(cab, slotNo, seqNo) in seen { return false; }
        seen := seen + {ReturnKey(cab, slotNo, seqNo)};
      }
      ok := store.ReturnDetected(cab, slotNo, b, soc, tempOk, now);
    }
  }

  class ReportService {
    const cab: nat
    const store: Store
    var lastSeq: int
    var liveKeys: set<int>
    var offlineKeys: set<int>
    ghost var log: seq<int>

    ghost function State(): Line
      reads this, store
    {
      Line(store.Rows(), lastSeq, liveKeys, offlineKeys, log)
    }

    constructor (cab: nat, store: Store)
      ensures this.cab == cab && this.store == store && State() == Line(store.Rows(), 0, {}, {}, [])
    {
      this.cab, this.store := cab, store;
      lastSeq, liveKeys, offlineKeys, log := 0, {}, {}, [];
    }

    /** Whether the report counts; a number that is not positive bypasses the keys and the cursor. */
    method SaveReport(seqNo: int) returns (verdict: Verdict)
      modifies this`lastSeq, this`liveKeys
      ensures (State(), verdict) == Save(old(State()), seqNo)
    {
      verdict := Accepted;
      if seqNo > 0 {
        if seqNo in liveKeys { return Duplicate; }
        liveKeys := liveKeys + {seqNo};
        if seqNo <= lastSeq {
          verdict := OutOfOrder;
        } else {
          lastSeq := seqNo;
        }
      }
    }

    ghost method Note(seqNo: int)
      modifies this`log
      ensures State() == Effect(old(State()), store.Rows(), seqNo)
    {
      if seqNo > 0 { log := log + [seqNo]; }
    }

    method StoreSoc(b: Option<nat>, soc: int)
      modifies store`batteries
      ensures store.Rows() == SetSoc(old(store.Rows()), b, soc)
    {
      if b.Some? && b.value < |store.batteries| {
        store.batteries := store.batteries[b.value := store.batteries[b.value].(soc := soc)];
      }
    }

    method StoreSlots(cabinet: nat, ds: seq<Detail>)
      modifies store`slots, store`batteries
      ensures store.Rows() == SetSlots(old(store.Rows()), cabinet, ds)
    {
      var i: nat := 0;
      assert ds[..0] == [];
      while i < |ds|
        invariant i <= |ds|
        invariant store.Rows() == SetSlots(old(store.Rows()), cabinet, ds[..i])
      {
        assert ds[..i + 1][..i] == ds[..i];
        var d := ds[i];
        store.ReportSlot(cabinet, d.slotNo, d.occupied, d.battery, d.lock, d.soc);
        i := i + 1;
      }
      assert ds[..|ds|] == ds;
    }

    method ReceiveBattery(seqNo: int, b: Option<nat>, soc: int) returns (ok: bool)
      modifies this, store`batteries
      ensures State() == BatteryReport(old(State()), cab, seqNo, b, soc)
      ensures ok <==> cab < |store.cabinets| && Save(old(State()), seqNo).1.Accepted?
    {
      if cab >= |store.cabinets| { return false; }
      var verdict := SaveReport(seqNo);
      ok := verdict == Accepted;
      if ok {
        StoreSoc(b, soc);
        Note(seqNo);
      }
    }

    method ReceiveSlots(seqNo: int, ds: seq<Detail>) returns (ok: bool)
      modifies this, store
      ensures State() == SlotReport(old(State()), cab, seqNo, ds)
      ensures ok <==> old(cab < |store.cabinets|) && Save(old(State()), seqNo).1.Accepted?
    {
      if cab >= |store.cabinets| { return false; }
      var verdict := SaveReport(seqNo);
      ok := verdict == Accepted;
      if ok {
        StoreSlots(cab, ds);
        Note(seqNo);
      }
    }

    /** The verdict is ignored unless the cabinet is unknown. */
    method ReceiveLock(seqNo: int, slotNo: nat, unlock: bool, opening: bool, now: int)
      modifies this, store
      ensures State() == Ingestion.LockReport(old(State()), cab, seqNo, slotNo, unlock, opening, now)
    {
      if cab >= |store.cabinets| { return; }
      var _ := SaveReport(seqNo);
      store.LockReport(cab, slotNo, unlock, opening, now);
      if unlock { Note(seqNo); }
    }

    method ReceiveHeartbeat(seqNo: int, online: bool, now: int)
      modifies this, store
      ensures State() == HeartbeatReport(old(State()), cab, seqNo, online, now)
    {
      if cab >= |store.cabinets| { return; }
      var verdict := SaveReport(seqNo);
      store.ReceiveHeartbeat(cab, verdict == Accepted, online, now);
      if verdict == Accepted { Note(seqNo); }
    }

    // ---------- replay ----------

    static method Swap(a: array<Item>, j: nat)
      requires 0 < j < a.Length
      modifies a
      ensures a[..] == old(a[..][j - 1 := a[j]][j := a[j - 1]])
      ensures multiset(a[..]) == multiset(old(a[..]))
    {
      a[j - 1], a[j] := a[j], a[j - 1];
    }

    /** The first n items are in order but for the one at j, which is no larger than those after it. */
    static predicate InOrderBut(items: seq<Item>, n: nat, j: nat)
      requires n <= |items|
    {
      forall p, q | 0 <= p < q < n && q != j :: items[p].seqNo <= items[q].seqNo
    }

    /** One more item into place, by swaps. */
    static method Insert(a: array<Item>, n: nat)
      requires n < a.Length && InOrderBut(a[..], n, n)
      modifies a
      ensures InOrderBut(a[..], n + 1, n + 1)
      ensures multiset(a[..]) == multiset(old(a[..]))
    {
      var j: nat := n;
      while j > 0 && a[j - 1].seqNo > a[j].seqNo
        invariant j <= n
        invariant InOrderBut(a[..], n + 1, j)
        invariant multiset(a[..]) == multiset(old(a[..]))
      {
        Swap(a, j);
        j := j - 1;
      }
    }

    static method SortBySeq(a: array<Item>)
      modifies a
      ensures InOrder(a[..]) && multiset(a[..]) == multiset(old(a[..]))
    {
      var n: nat := 0;
      while n < a.Length
        invariant n <= a.Length && InOrderBut(a[..], n, n)
        invariant multiset(a[..]) == multiset(old(a[..]))
      {
        Insert(a, n);
        n := n + 1;
      }
    }

    method ProcessOffline(item: Item, now: int)
      requires cab < |store.cabinets|
      modifies this, store
      ensures State() == Absorb(old(State()), cab, item, now)
    {
      match item.payload {
        case BatteryData(b, soc) =>
          StoreSoc(b, soc);
          Note(item.seqNo);
        case LockData(slotNo, unlock, opening) =>
          store.LockReport(cab, slotNo, unlock, opening, now);
          if unlock { Note(item.seqNo); }
        case SlotData(m, ds) =>
          if m <= 0 {
            StoreSlots(cab, ds);
            Note(item.seqNo);
          } else {
            var _ := ReceiveSlots(m, ds);
          }
        case ForeignSlots(other, verdict, ds) =>
          if verdict == Accepted && other < |store.cabinets| {
            StoreSlots(other, ds);
          }
        case OtherData =>
      }
    }

    /** Sorts the batch in place, then takes it item by item against a cursor read once. */
    method OfflineReplay(reports: array<Item>, now: int) returns (processed: nat, skipped: nat)
      modifies this, store, reports
      ensures InOrder(reports[..]) && multiset(reports[..]) == multiset(old(reports[..]))
      ensures var r := Replay(old(State()), cab, reports[..], now);
              State() == r.line && processed == r.processed && skipped == r.skipped
    {
      processed, skipped := 0, 0;
      SortBySeq(reports);
      var last := lastSeq;
      ghost var items := reports[..];
      var i: nat := 0;
      assert items[..0] == [];
      while i < reports.Length
        invariant i <= reports.Length && reports[..] == items
        invariant ReplayAll(old(State()), cab, items[..i], now) == Batch(State(), last, processed, skipped)
      {
        assert items[..i + 1][..i] == items[..i] && items[..i + 1][i] == items[i];
        processed, last, skipped := ReplayItem(reports[i], last, processed, skipped, now);
        i := i + 1;
      }
      assert items[..reports.Length] == items;
      if processed > 0 && cab < |store.cabinets| && store.cabinets[cab].status == Offline {
        store.cabinets := store.cabinets[cab := Cabinet(Online, Some(now))];
        store.HandleCabinetRecovered(cab, now);
      }
    }

    method ReplayItem(item: Item, last: int, processed: nat, skipped: nat, now: int)
      returns (processed': nat, last': int, skipped': nat)
      modifies this, store
      ensures Batch(State(), last', processed', skipped')
           == ReplayOne(Batch(old(State()), last, processed, skipped), cab, item, now)
    {
      processed', last', skipped' := processed, last, skipped;
      if item.seqNo in offlineKeys {
        skipped' := skipped + 1;
        return;
      }
      offlineKeys := offlineKeys + {item.seqNo};
      var isProcessed := false;
      if item.seqNo > last {
        isProcessed := true;
        last' := item.seqNo;
        lastSeq := last';
      }
      if isProcessed && cab < |store.cabinets| {
        processed' := processed + 1;
        ProcessOffline(item, now);
      } else {
        skipped' := skipped + 1;
      }
    }
  }
}
