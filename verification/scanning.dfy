/** What a scan can come to. */
module Scanning {
  import opened Models
  import opened Transactions
  import opened Handlers

  /** The marks a scan may leave before it books anything: a cabinet set offline, a slot set faulty. */
  ghost predicate Marked(db: Db, db': Db) {
    && db' == db.(slots := db'.slots, cabinets := db'.cabinets)
    && |db'.slots| == |db.slots|
    && forall k | 0 <= k < |db.slots| :: db'.slots[k] == db.slots[k] || db'.slots[k] == db.slots[k].(status := Fault)
  }

  /** After the marks a scan books nothing, books an abnormal order, or rents slot k. */
  ghost predicate Outcome(db: Db, marked: Db, s: Scanned, u: nat, cab: nat, no: Option<nat>, reason: Reason, k: nat,
                          now: int)
  {
    && Marked(db, marked)
    && reason != NoReason
    && (s.ok ==> !HasActive(db.orders, u) && u < |db.users| && db.users[u].active)
    && (|| s == Scanned(marked, false)
        || (s.ok && CreateAbnormal(marked, u, cab, no, reason, now) == Some(s.db))
        || (s.ok && u < |db.users| && RentTx(marked, u, marked.users[u], k, now) == Some(s.db)))
  }

  lemma OnlineCases(db: Db, marked: Db, u: nat, cab: nat, slotNo: Option<nat>, now: int)
    returns (marked': Db, no: Option<nat>, reason: Reason, k: nat)
    requires Marked(db, marked) && !HasActive(db.orders, u)
    ensures Outcome(db, marked', ScanOnline(marked, u, cab, slotNo, now), u, cab, no, reason, k, now)
  {
    marked', no, reason, k := marked, None, BatteryMissing, 0;
    var found := if slotNo.Some? then FindSlot(marked.slots, cab, slotNo.value) else FirstOccupied(marked.slots, cab);
    if u < |marked.users| && marked.users[u].active && found.Some? {
      k := found.value;
      var slot := marked.slots[k];
      no := Some(slot.slotNo);
      if slotNo.Some? && slot.status == Fault {
        reason := LockStuck;
      } else if slot.status == Occupied && slot.battery.Some? && slot.battery.value < |marked.batteries| {
        if marked.batteries[slot.battery.value].status != InCabinet || marked.batteries[slot.battery.value].soc < 20 {
          marked' := SetSlot(marked, k, slot.(status := Fault));
        } else if slot.lock != 1 {
          reason := LockStuck;
        }
      }
    }
  }

  /** The case split of the whole scan. */
  lemma ScanCases(db: Db, u: nat, cab: nat, slotNo: Option<nat>, now: int)
    returns (marked: Db, no: Option<nat>, reason: Reason, k: nat)
    ensures Outcome(db, marked, Scan(db, u, cab, slotNo, now), u, cab, no, reason, k, now)
  {
    marked, no, reason, k := db, slotNo, CabinetOffline, 0;
    if !HasActive(db.orders, u) && cab < |db.cabinets| && db.cabinets[cab].status == Online {
      var c := db.cabinets[cab];
      if c.lastOnline.Some? && now - c.lastOnline.value > 300 {
        marked := SetCabinet(db, cab, c.(status := Offline));
        if CreateAbnormal(marked, u, cab, slotNo, CabinetOffline, now).None? {
          marked, no, reason, k := OnlineCases(db, marked, u, cab, slotNo, now);
        }
      } else {
        marked, no, reason, k := OnlineCases(db, db, u, cab, slotNo, now);
      }
    }
  }
}
