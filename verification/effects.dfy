/** What a scan does to the tables (internal/handlers/rental_service.go), column by column and with every limit written
    out, whether it rents, books an abnormal order, or refuses. */
module Effects {
  import opened Fees
  import opened Models
  import opened Transactions
  import opened Handlers

  // ---------- what queries find ----------

  /** The first slot row of the cabinet with that number. */
  ghost predicate SlotAt(slots: seq<Slot>, cab: nat, no: nat, k: nat) {
    && k < |slots| && slots[k].cabinet == cab && slots[k].slotNo == no
    && forall j | 0 <= j < k :: !(slots[j].cabinet == cab && slots[j].slotNo == no)
  }

  /** The first occupied slot row of the cabinet. */
  ghost predicate FullAt(slots: seq<Slot>, cab: nat, k: nat) {
    && k < |slots| && slots[k].cabinet == cab && slots[k].status == Occupied
    && forall j | 0 <= j < k :: !(slots[j].cabinet == cab && slots[j].status == Occupied)
  }

  ghost predicate RuleAt(rules: seq<Rule>, r: nat) {
    && r < |rules| && rules[r].isDefault && rules[r].active
    && forall j | 0 <= j < r :: !(rules[j].isDefault && rules[j].active)
  }

  /** The newest order under which battery b is out. */
  ghost predicate OutUnder(orders: seq<Order>, b: nat, oid: nat) {
    && oid < |orders| && orders[oid].battery == b && (orders[oid].status == Renting || orders[oid].status == Returning)
    && forall j | oid < j < |orders| :: !(orders[j].battery == b && orders[j].status in {Renting, Returning})
  }

  ghost predicate Idle(orders: seq<Order>, u: nat) {
    forall i | 0 <= i < |orders| && orders[i].user == u ::
      orders[i].status != Pending && orders[i].status != Renting && orders[i].status != Returning
  }

  lemma SlotIsAt(slots: seq<Slot>, cab: nat, no: nat)
    ensures match FindSlot(slots, cab, no)
            case Some(k) => SlotAt(slots, cab, no, k) && forall j: nat :: SlotAt(slots, cab, no, j) ==> j == k
            case None => forall j: nat :: !SlotAt(slots, cab, no, j)
  {
  }

  lemma FullIsAt(slots: seq<Slot>, cab: nat)
    ensures match FirstOccupied(slots, cab)
            case Some(k) => FullAt(slots, cab, k) && forall j: nat :: FullAt(slots, cab, j) ==> j == k
            case None => forall j: nat :: !FullAt(slots, cab, j)
  {
  }

  lemma RuleIsAt(rules: seq<Rule>)
    ensures match DefaultRule(rules)
            case Some(r) => RuleAt(rules, r) && forall j: nat :: RuleAt(rules, j) ==> j == r
            case None => forall j: nat :: !RuleAt(rules, j)
  {
  }

  lemma RentalIsOut(orders: seq<Order>, b: nat)
    ensures match LatestRental(orders, b)
            case Some(i) => OutUnder(orders, b, i) && forall j: nat :: OutUnder(orders, b, j) ==> j == i
            case None => forall j: nat :: !OutUnder(orders, b, j)
  {
  }

  lemma IdleIffNotActive(orders: seq<Order>, u: nat)
    ensures Idle(orders, u) <==> !HasActive(orders, u)
  {
  }

  // ---------- scans ----------

  /** A free ride or enough on the balance. */
  predicate Affords(db: Db, u: nat) {
    u < |db.users| && (db.users[u].depositFree || db.users[u].balance >= db.depositAmt)
  }

  /** An order is added and its deposit, unless the user is free of it, taken from the balance and recorded as frozen.
      Slots, batteries and cabinets may change otherwise, nothing else does. */
  ghost predicate Adds(db: Db, db': Db, o: Order) {
    && o.user < |db.users| && o.depositAmt == (if db.users[o.user].depositFree then 0 else db.depositAmt)
    && db'.orders == db.orders + [o]
    && db'.users == db.users[o.user := db.users[o.user].(balance := db.users[o.user].balance - o.depositAmt)]
    && db'.records == db.records + (if o.depositAmt > 0
                                    then [DepositRecord(|db.orders|, o.user, Freeze, o.depositAmt)] else [])
    && db' == db.(orders := db'.orders, users := db'.users, records := db'.records,
                  slots := db'.slots, batteries := db'.batteries)
  }

  /** A new order as a scan writes it. */
  ghost predicate NewRow(db: Db, o: Order, u: nat, k: nat, now: int) {
    && k < |db.slots| && Some(o.battery) == db.slots[k].battery && o.battery < |db.batteries|
    && RuleAt(db.rules, o.rule)
    && o.user == u && o.fromCabinet == db.slots[k].cabinet && o.fromSlot == k && o.createdAt == now
    && o.deposit == (if o.depositAmt > 0 then Frozen else Unfrozen)
    && o.toCabinet == None && o.toSlot == None && !o.crossCabinet && o.durationSec == 0
    && o.totalFee == 0 && o.paidFee == 0 && o.exceptionFee == 0 && o.refundAmt == 0
    && o.action == CompNone && o.comp == CompOpen
  }

  /** The slot an abnormal order is put on: the one asked for if it exists, else the first occupied one. */
  ghost predicate Chosen(slots: seq<Slot>, cab: nat, no: Option<nat>, k: nat) {
    if no.Some? && no.value != 0 && (exists j: nat :: SlotAt(slots, cab, no.value, j))
    then SlotAt(slots, cab, no.value, k) else FullAt(slots, cab, k)
  }

  ghost predicate CanBook(db: Db, u: nat, k: nat) {
    && u < |db.users| && db.users[u].active && Affords(db, u) && (exists r: nat :: RuleAt(db.rules, r))
    && k < |db.slots| && db.slots[k].battery.Some? && db.slots[k].battery.value < |db.batteries|
  }

  /** An abnormal order is booked on slot k: not started, not billed. */
  ghost predicate Books(db: Db, db': Db, u: nat, k: nat, reason: Reason, now: int) {
    && |db'.orders| == |db.orders| + 1
    && var o := db'.orders[|db.orders|];
    && Adds(db, db', o) && NewRow(db, o, u, k, now) && db'.slots == db.slots && db'.batteries == db.batteries
    && o.status == Abnormal && o.startTime == None && !o.billing && o.reason == reason
  }

  /** An abnormal order is booked on the chosen slot if that can be done, and otherwise nothing. */
  ghost predicate FallsBack(db: Db, s: Scanned, u: nat, cab: nat, no: Option<nat>, reason: Reason, now: int) {
    if exists k: nat :: Chosen(db.slots, cab, no, k) && CanBook(db, u, k)
    then s.ok && exists k: nat :: Chosen(db.slots, cab, no, k) && Books(db, s.db, u, k, reason, now)
    else s == Scanned(db, false)
  }

  lemma SlotIsChosen(db: Db, cab: nat, no: Option<nat>)
    ensures match AbnormalSlot(db, cab, no)
            case Some(k) => Chosen(db.slots, cab, no, k) && forall j: nat :: Chosen(db.slots, cab, no, j) ==> j == k
            case None => forall j: nat :: !Chosen(db.slots, cab, no, j)
  {
    hide SlotAt, FullAt, FindSlot, FirstOccupied;
    if no.Some? { SlotIsAt(db.slots, cab, no.value); }
    FullIsAt(db.slots, cab);
  }

  lemma AbnormalBooks(db: Db, u: nat, k: nat, reason: Reason, now: int)
    requires u < |db.users|
    ensures var r := AbnormalTx(db, u, db.users[u], k, reason, now);
            if CanBook(db, u, k) then r.Some? && Books(db, r.value, u, k, reason, now) else r == None
  {
    hide RuleAt, DefaultRule;
    RuleIsAt(db.rules);
  }

  lemma AbnormalFallsBack(db: Db, u: nat, cab: nat, no: Option<nat>, reason: Reason, now: int)
    ensures FallsBack(db, Fallback(db, u, cab, no, reason, now), u, cab, no, reason, now)
  {
    hide Chosen, Books, AbnormalSlot, AbnormalTx;
    SlotIsChosen(db, cab, no);
    if u < |db.users| && AbnormalSlot(db, cab, no).Some? {
      hide CanBook;
      AbnormalBooks(db, u, AbnormalSlot(db, cab, no).value, reason, now);
    }
  }

  /** The slot a scan of an online cabinet looks at. */
  ghost predicate Looked(slots: seq<Slot>, cab: nat, no: Option<nat>, k: nat) {
    if no.Some? then SlotAt(slots, cab, no.value, k) else FullAt(slots, cab, k)
  }

  /** A slot that holds a battery fit to rent: in the cabinet, charged to 20 or more, behind a working lock. */
  predicate Fit(db: Db, k: nat) {
    && k < |db.slots| && db.slots[k].status == Occupied
    && db.slots[k].battery.Some? && db.slots[k].battery.value < |db.batteries|
    && db.batteries[db.slots[k].battery.value].status == InCabinet
    && db.batteries[db.slots[k].battery.value].soc >= 20
    && db.slots[k].lock == 1
  }

  /** The rental is booked, the slot is unlocking, and the battery is in use and in no slot. */
  ghost predicate Rents(db: Db, db': Db, u: nat, k: nat, now: int) {
    && |db'.orders| == |db.orders| + 1
    && var o := db'.orders[|db.orders|];
    && Adds(db, db', o) && NewRow(db, o, u, k, now)
    && o.status == Renting && o.startTime == Some(now) && o.billing && o.reason == NoReason
    && db'.slots == db.slots[k := db.slots[k].(status := Unlocking)]
    && db'.batteries == db.batteries[o.battery := db.batteries[o.battery].(status := InUse, slot := None)]
  }

  /** What a scan of slot k of an online cabinet comes to for a user who may scan. */
  ghost predicate Looks(db: Db, s: Scanned, u: nat, cab: nat, no: Option<nat>, k: nat, now: int)
    requires k < |db.slots| && u < |db.users|
  {
    var slot := db.slots[k];
    var onSlot := Some(slot.slotNo);
    if Fit(db, k) then
      if (exists r: nat :: RuleAt(db.rules, r)) && Affords(db, u) then s.ok && Rents(db, s.db, u, k, now)
      else s == Scanned(db, false)
    else if slot.status == Fault && no.Some? then FallsBack(db, s, u, cab, onSlot, LockStuck, now)
    else if slot.status != Occupied || slot.battery.None? || slot.battery.value >= |db.batteries| then
      FallsBack(db, s, u, cab, onSlot, BatteryMissing, now)
    else if db.batteries[slot.battery.value].status != InCabinet || db.batteries[slot.battery.value].soc < 20 then
      FallsBack(db.(slots := db.slots[k := slot.(status := Fault)]), s, u, cab, onSlot, BatteryMissing, now)
    else FallsBack(db, s, u, cab, onSlot, LockStuck, now)
  }

  /** The transaction looks at the slot, the battery and the rules again, and at the user row read before. */
  lemma RentCommitsIff(db: Db, u: nat, snap: User, k: nat, now: int)
    ensures RentTx(db, u, snap, k, now).Some?
            <==> && u < |db.users| && Fit(db, k) && (exists r: nat :: RuleAt(db.rules, r))
                 && (snap.depositFree || snap.balance >= db.depositAmt)
  {
    RuleIsAt(db.rules);
  }

  lemma RentRents(db: Db, u: nat, k: nat, now: int)
    requires u < |db.users| && RentTx(db, u, db.users[u], k, now).Some?
    ensures Rents(db, RentTx(db, u, db.users[u], k, now).value, u, k, now)
  {
    RuleIsAt(db.rules);
    assert NewRow(db, RentTx(db, u, db.users[u], k, now).value.orders[|db.orders|], u, k, now);
  }

  lemma OnlineLooks(db: Db, u: nat, cab: nat, no: Option<nat>, now: int, k: nat)
    requires u < |db.users| && db.users[u].active && Looked(db.slots, cab, no, k)
    ensures Looks(db, ScanOnline(db, u, cab, no, now), u, cab, no, k, now)
  {
    hide RentTx, Fallback, FallsBack, Rents;
    if no.Some? { SlotIsAt(db.slots, cab, no.value); } else { FullIsAt(db.slots, cab); }
    var slot := db.slots[k];
    var onSlot := Some(slot.slotNo);
    AbnormalFallsBack(db, u, cab, onSlot, LockStuck, now);
    AbnormalFallsBack(db, u, cab, onSlot, BatteryMissing, now);
    AbnormalFallsBack(SetSlot(db, k, slot.(status := Fault)), u, cab, onSlot, BatteryMissing, now);
    RentCommitsIff(db, u, db.users[u], k, now);
    if RentTx(db, u, db.users[u], k, now).Some? { RentRents(db, u, k, now); }
  }

  lemma BookableIff(db: Db, u: nat, cab: nat, no: Option<nat>, reason: Reason, now: int)
    ensures CreateAbnormal(db, u, cab, no, reason, now).Some?
            <==> exists k: nat :: Chosen(db.slots, cab, no, k) && CanBook(db, u, k)
  {
    AbnormalFallsBack(db, u, cab, no, reason, now);
  }

  lemma NothingToLookAt(db: Db, u: nat, cab: nat, no: Option<nat>, now: int)
    ensures u >= |db.users| || !db.users[u].active || (forall k: nat :: !Looked(db.slots, cab, no, k)) ==>
              ScanOnline(db, u, cab, no, now) == Scanned(db, false)
  {
    hide Fallback, RentTx, SlotAt, FullAt;
    if no.Some? { SlotIsAt(db.slots, cab, no.value); } else { FullIsAt(db.slots, cab); }
    var k := if no.Some? then FindSlot(db.slots, cab, no.value) else FirstOccupied(db.slots, cab);
    assert k.Some? ==> Looked(db.slots, cab, no, k.value);
  }

  /** A scan of a known cabinet: refused with an active order; an abnormal order if the cabinet is not online; the same
      if it was last seen over 300 seconds ago, and then it is marked offline, and looked at all the same if no abnormal
      order can be booked; otherwise what the slot looked at allows, if the account is active and there is such a
      slot. */
  lemma ScanComesTo(db: Db, u: nat, cab: nat, no: Option<nat>, now: int)
    requires u < |db.users| && cab < |db.cabinets|
    ensures var s, c := Scan(db, u, cab, no, now), db.cabinets[cab];
            var stale := c.lastOnline.Some? && now - c.lastOnline.value > 300;
            var seen := if stale then db.(cabinets := db.cabinets[cab := c.(status := Offline)]) else db;
            if !Idle(db.orders, u) then s == Scanned(db, false)
            else if c.status != Online then FallsBack(db, s, u, cab, no, CabinetOffline, now)
            else if stale && (exists k: nat :: Chosen(db.slots, cab, no, k) && CanBook(db, u, k)) then
              FallsBack(seen, s, u, cab, no, CabinetOffline, now)
            else if !db.users[u].active || (forall k: nat :: !Looked(db.slots, cab, no, k)) then
              s == Scanned(seen, false)
            else forall k: nat | Looked(db.slots, cab, no, k) :: Looks(seen, s, u, cab, no, k, now)
  {
    hide ScanOnline, FallsBack, Looks, Rents;
    var c := db.cabinets[cab];
    IdleIffNotActive(db.orders, u);
    AbnormalFallsBack(db, u, cab, no, CabinetOffline, now);
    var stale := c.lastOnline.Some? && now - c.lastOnline.value > 300;
    var seen := if stale then db.(cabinets := db.cabinets[cab := c.(status := Offline)]) else db;
    AbnormalFallsBack(seen, u, cab, no, CabinetOffline, now);
    BookableIff(seen, u, cab, no, CabinetOffline, now);
    assert forall k: nat :: CanBook(seen, u, k) <==> CanBook(db, u, k);
    NothingToLookAt(seen, u, cab, no, now);
    if db.users[u].active {
      forall k: nat | Looked(db.slots, cab, no, k)
        ensures Looks(seen, ScanOnline(seen, u, cab, no, now), u, cab, no, k, now)
      {
        OnlineLooks(seen, u, cab, no, now, k);
      }
    }
  }

  lemma RuleExists(rules: seq<Rule>)
    ensures (exists r: nat :: RuleAt(rules, r))
            <==> exists r: nat :: r < |rules| && rules[r].isDefault && rules[r].active
  {
    RuleIsAt(rules);
  }

  /** A user with nothing active scans an online cabinet seen within 300 seconds: the scan rents if and only if the slot
      it looks at is fit, there is a default rule, and the user is free of the deposit or has it. */
  lemma ScanRentsIff(db: Db, u: nat, cab: nat, no: Option<nat>, now: int, k: nat)
    requires u < |db.users| && db.users[u].active && Idle(db.orders, u)
    requires cab < |db.cabinets| && db.cabinets[cab].status == Online
    requires db.cabinets[cab].lastOnline.Some? ==> now - db.cabinets[cab].lastOnline.value <= 300
    requires if no.Some? then SlotAt(db.slots, cab, no.value, k) else FullAt(db.slots, cab, k)
    ensures var end := Scan(db, u, cab, no, now).db;
            (|end.orders| > |db.orders| && end.orders[|db.orders|].status == Renting)
            <==> && db.slots[k].status == Occupied
                 && db.slots[k].battery.Some? && db.slots[k].battery.value < |db.batteries|
                 && db.batteries[db.slots[k].battery.value].status == InCabinet
                 && db.batteries[db.slots[k].battery.value].soc >= 20
                 && db.slots[k].lock == 1
                 && (exists r: nat :: r < |db.rules| && db.rules[r].isDefault && db.rules[r].active)
                 && (db.users[u].depositFree || db.users[u].balance >= db.depositAmt)
  {
    hide Scan;
    ScanComesTo(db, u, cab, no, now);
    assert Looked(db.slots, cab, no, k);
    RuleIsAt(db.rules);
    RuleExists(db.rules);
  }
}
