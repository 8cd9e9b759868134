/** The Reports page (pages/Reports.tsx): attendance rate per batch,
    revenue by month, the active/inactive split and the summary counts. */
module Reports {
  import opened Common
  import opened Types
  import opened Revenue
  import AppStore
  import Dashboard
  import CoachesPage
  import InventoryPage

  function InBatch(batchId: string): Session -> bool
  {
    (x: Session) => x.batchId == Some(batchId)
  }

  /** The ids of the sessions linked to a batch. */
  function BatchSessionIds(sessions: seq<Session>, batchId: string): (ids: seq<string>)
    ensures |ids| == |Filter(sessions, InBatch(batchId))|
    ensures forall id :: id in ids <==> exists x :: x in sessions && x.batchId == Some(batchId) && x.id == id
  {
    var linked := Filter(sessions, InBatch(batchId));
    var ids := seq(|linked|, i requires 0 <= i < |linked| => linked[i].id);
    assert forall x :: x in sessions && x.batchId == Some(batchId) ==> x.id in ids by {
      forall x | x in sessions && x.batchId == Some(batchId) ensures x.id in ids {
        assert InBatch(batchId)(x);
        var i :| 0 <= i < |linked| && linked[i] == x;
        assert ids[i] == x.id;
      }
    }
    assert forall id :: id in ids ==> exists x :: x in sessions && x.batchId == Some(batchId) && x.id == id by {
      forall id | id in ids ensures exists x :: x in sessions && x.batchId == Some(batchId) && x.id == id {
        var i :| 0 <= i < |ids| && ids[i] == id;
        assert linked[i] in linked && InBatch(batchId)(linked[i]);
      }
    }
    ids
  }

  function SessionIn(ids: seq<string>): AttendanceRecord -> bool
  {
    (a: AttendanceRecord) => a.sessionId in ids
  }

  function IsPresent(a: AttendanceRecord): bool
  {
    a.status == Present
  }

  /** `Math.round(present / records * 100)`: the nearest whole percentage,
      halves rounded up. */
  function RoundPercent(present: nat, records: nat): (r: nat)
    requires 0 < records
    ensures 2 * records * r <= 200 * present + records < 2 * records * r + 2 * records
    ensures present <= records ==> r <= 100
  {
    var r := (200 * present + records) / (2 * records);
    DivBounds(200 * present + records, 2 * records);
    PercentCap(present, records, r);
    r
  }

  /** Integer division rounds down. */
  lemma {:induction false} DivBounds(a: nat, m: nat)
    requires m > 0
    ensures m * (a / m) <= a < m * (a / m) + m
  {
  }

  lemma {:induction false} PercentCap(present: nat, records: nat, r: nat)
    requires 0 < records
    requires 2 * records * r <= 200 * present + records
    ensures present <= records ==> r <= 100
  {
    if present <= records && r > 100 {
      MulMonotone(2 * records, 101, r);
      assert false;
    }
  }

  lemma {:induction false} MulMonotone(a: nat, b: nat, c: nat)
    requires b <= c
    ensures a * b <= a * c
  {
    assert a * c - a * b == a * (c - b);
  }

  /** The rate shown for a batch. */
  function BatchRate(s: AppState, b: Batch): (rate: nat)
    ensures rate <= 100
  {
    var ids := BatchSessionIds(s.sessions, b.id);
    if |ids| == 0 then 0
    else
      var records := Filter(s.attendance, SessionIn(ids));
      var present := |Filter(records, IsPresent)|;
      if |records| > 0 then RoundPercent(present, |records|) else 0
  }

  /** A batch with no sessions, or with sessions but no records, shows 0;
      otherwise the rate is the rounded share of PRESENT marks among the
      records of its sessions (LATE counts against it). */
  lemma {:induction false} BatchRateCases(s: AppState, b: Batch)
    ensures var ids := BatchSessionIds(s.sessions, b.id);
      var records := Filter(s.attendance, SessionIn(ids));
      && ((forall x :: x in s.sessions ==> x.batchId != Some(b.id)) ==> BatchRate(s, b) == 0)
      && (records == [] ==> BatchRate(s, b) == 0)
      && (records != [] ==> BatchRate(s, b) == RoundPercent(|Filter(records, IsPresent)|, |records|))
  {
    var ids := BatchSessionIds(s.sessions, b.id);
    if forall x :: x in s.sessions ==> x.batchId != Some(b.id) {
      FilterKeepsNone(s.sessions, InBatch(b.id));
    }
    if ids == [] {
      FilterKeepsNone(s.attendance, SessionIn(ids));
    }
  }

  /** Two PRESENT marks out of three records show 67%; one out of two, 50%. */
  lemma {:induction false} RoundingExamples()
    ensures RoundPercent(2, 3) == 67
    ensures RoundPercent(1, 2) == 50
    ensures RoundPercent(1, 8) == 13
  {
  }

  /** A session without a batch link (every session the Schedule page
      creates) leaves every batch rate as it was. */
  lemma {:induction false} UnbatchedSessionKeepsRates(s: AppState, x: Session, b: Batch)
    requires x.batchId.None?
    ensures BatchRate(s.(sessions := s.sessions + [x]), b) == BatchRate(s, b)
  {
    var t := s.(sessions := s.sessions + [x]);
    assert (s.sessions + [x])[..|s.sessions|] == s.sessions;
    assert Filter(t.sessions, InBatch(b.id)) == Filter(s.sessions, InBatch(b.id));
  }

  /** On the seed data the Junior Beginners batch shows 50%: its one
      session has a PRESENT and a LATE mark. */
  lemma {:induction false} SeedRateJuniors(today: string, tomorrow: string)
    ensures BatchRate(AppStore.InitialState(today, tomorrow), AppStore.MockBatches[0]) == 50
  {
    var s := AppStore.InitialState(today, tomorrow);
    var ids := SeedJuniorSessionIds(today, tomorrow);
    SeedJuniorRecords(ids);
    assert RoundPercent(1, 2) == 50;
  }

  /** Only today's session s1 belongs to Junior Beginners. */
  lemma {:induction false} SeedJuniorSessionIds(today: string, tomorrow: string) returns (ids: seq<string>)
    ensures ids == BatchSessionIds(AppStore.MockSessions(today, tomorrow), "b1")
    ensures |ids| == 1 && forall id :: id in ids <==> id == "s1"
  {
    var ss := AppStore.MockSessions(today, tomorrow);
    assert ss[..1][..0] == [];
    assert Filter(ss[..1], InBatch("b1")) == [ss[0]];
    assert Filter(ss, InBatch("b1")) == [ss[0]];
    ids := BatchSessionIds(ss, "b1");
  }

  /** Both seeded marks are for s1: one PRESENT, one LATE. */
  lemma {:induction false} SeedJuniorRecords(ids: seq<string>)
    requires forall id :: id in ids <==> id == "s1"
    ensures Filter(AppStore.MockAttendance, SessionIn(ids)) == AppStore.MockAttendance
    ensures |Filter(AppStore.MockAttendance, IsPresent)| == 1
  {
    var att := AppStore.MockAttendance;
    assert att[..1][..0] == [];
    assert SessionIn(ids)(att[0]) && SessionIn(ids)(att[1]);
    assert Filter(att[..1], SessionIn(ids)) == [att[0]];
    assert att[..|att| - 1] == att[..1];
    assert Filter(att[..1], IsPresent) == [att[0]];
    assert Filter(att, IsPresent) == [att[0]];
  }

  /** Advanced Youth shows 0% (a session, no marks) and Adult Volleyball 0%
      (no session). */
  lemma {:induction false} SeedRatesZero(today: string, tomorrow: string)
    ensures BatchRate(AppStore.InitialState(today, tomorrow), AppStore.MockBatches[1]) == 0
    ensures BatchRate(AppStore.InitialState(today, tomorrow), AppStore.MockBatches[2]) == 0
  {
    var s := AppStore.InitialState(today, tomorrow);
    var ss, att := s.sessions, s.attendance;
    assert ss[..1][..0] == [] && att[..1][..0] == [];
    assert Filter(ss[..1], InBatch("b2")) == [];
    assert Filter(ss, InBatch("b2")) == [ss[1]];
    var ids := BatchSessionIds(ss, "b2");
    assert forall id :: id in ids ==> id == "s2";
    assert Filter(att[..1], SessionIn(ids)) == [];
    assert Filter(att, SessionIn(ids)) == [];
    assert Filter(ss[..1], InBatch("b3")) == [];
    assert Filter(ss, InBatch("b3")) == [];
  }

  /** The dictionary `paymentsByMonth` after the `reduce` has visited the
      payments `ps`: each payment adds its amount to its month's entry,
      starting the entry at 0 when the month is new. */
  function MonthDict(ps: seq<Payment>): map<string, int>
  {
    if ps == [] then map[]
    else
      var acc, p := MonthDict(ps[..|ps| - 1]), ps[|ps| - 1];
      acc[MonthOf(p.date) := Lookup(acc, MonthOf(p.date)) + p.amount]
  }

  /** `acc[k] || 0`: a missing entry reads as 0. */
  function Lookup(acc: map<string, int>, k: string): int
  {
    if k in acc then acc[k] else 0
  }

  /** What the dictionary means: its keys are exactly the months some
      payment falls in, and each month (read with a default of 0) holds
      the total of that month's payments. */
  lemma {:induction false} MonthDictMeaning(ps: seq<Payment>)
    ensures forall k :: k in MonthDict(ps) <==> k in KeyList(ps, ByMonth)
    ensures forall k :: Lookup(MonthDict(ps), k) == Sum(ps, AmountAt(ByMonth, k))
  {
    if ps != [] {
      var n := |ps| - 1;
      MonthDictMeaning(ps[..n]);
      KeyListSnoc(ps, ByMonth);
      assert ByMonth(ps[n]) == MonthOf(ps[n].date);
      forall k ensures Lookup(MonthDict(ps), k) == Sum(ps, AmountAt(ByMonth, k)) {
        assert AmountAt(ByMonth, k)(ps[n]) == if MonthOf(ps[n].date) == k then ps[n].amount else 0;
      }
    }
  }

  /** One turn of the loop over payment `i`: the dictionary update is the
      next `MonthDict`. */
  lemma {:induction false} MonthTurnDict(payments: seq<Payment>, i: nat, month: string, acc: map<string, int>)
    requires i < |payments| && month == MonthOf(payments[i].date)
    requires acc == MonthDict(payments[..i])
    ensures acc[month := Lookup(acc, month) + payments[i].amount] == MonthDict(payments[..i + 1])
  {
    assert payments[..i + 1][..i] == payments[..i];
  }

  /** The same turn writes a month not yet in the dictionary at the end of
      its key order. */
  lemma {:induction false} MonthTurnOrder(payments: seq<Payment>, i: nat, month: string, acc: map<string, int>, order: seq<string>)
    requires i < |payments| && month == MonthOf(payments[i].date)
    requires acc == MonthDict(payments[..i]) && order == Dedup(KeyList(payments[..i], ByMonth))
    ensures (if month in acc then order else order + [month]) == Dedup(KeyList(payments[..i + 1], ByMonth))
  {
    var ks := KeyList(payments[..i], ByMonth);
    assert month in acc <==> month in Dedup(ks) by {
      MonthDictMeaning(payments[..i]);
    }
    assert KeyList(payments[..i + 1], ByMonth) == ks + [month] by {
      assert payments[..i + 1][..i] == payments[..i];
      KeyListSnoc(payments[..i + 1], ByMonth);
      assert ByMonth(payments[i]) == month;
    }
    DedupSnoc(ks, month);
  }

  /** The `reduce` that fills the dictionary `paymentsByMonth`; `order` is
      the order in which its keys were first written, which `Object.keys`
      gives back for keys such as "2023-10". */
  method MonthTotals(payments: seq<Payment>) returns (acc: map<string, int>, order: seq<string>)
    ensures acc == MonthDict(payments)
    ensures order == Dedup(KeyList(payments, ByMonth))
  {
    acc, order := map[], [];
    for i := 0 to |payments|
      invariant acc == MonthDict(payments[..i])
      invariant order == Dedup(KeyList(payments[..i], ByMonth))
    {
      var month := MonthOf(payments[i].date);
      MonthTurnDict(payments, i, month, acc);
      MonthTurnOrder(payments, i, month, acc, order);
      if month !in acc {
        order := order + [month];
      }
      acc := acc[month := Lookup(acc, month) + payments[i].amount];
    }
    assert payments[..|payments|] == payments;
  }

  /** `revenueData`: the dictionary read back in key-insertion order
      (`Object.keys`). The result is the ledger grouped by month: each month
      once in first-occurrence order, each with its own total, adding up to
      the whole ledger. */
  method PaymentsByMonth(payments: seq<Payment>) returns (chart: seq<Bucket>)
    ensures chart == Totals(payments, ByMonth)
    ensures Keys(chart) == Dedup(KeyList(payments, ByMonth))
    ensures Distinct(Keys(chart))
    ensures forall i :: 0 <= i < |chart| ==> chart[i].amount == Sum(payments, AmountAt(ByMonth, chart[i].key))
    ensures Sum(chart, BucketAmount) == Sum(payments, PayAmount)
  {
    var acc, order := MonthTotals(payments);
    MonthDictMeaning(payments);
    chart := seq(|order|, j requires 0 <= j < |order| => Bucket(order[j], acc[order[j]]));
    TotalsFacts(payments, ByMonth);
    ghost var T := Totals(payments, ByMonth);
    assert |Keys(T)| == |T|;
    forall j | 0 <= j < |T| ensures chart[j] == T[j] {
      assert T[j].key == order[j];
      assert Lookup(acc, order[j]) == acc[order[j]];
    }
  }

  /** The seed ledger has two October 2023 payments: one month, 750 in all;
      by date they are two separate bars. */
  lemma {:induction false} SeedRevenue()
    ensures Totals(AppStore.MockPayments, ByMonth) == [Bucket("2023-10", 750)]
    ensures Totals(AppStore.MockPayments, ByDate) == [Bucket("2023-10-01", 300), Bucket("2023-10-05", 450)]
  {
    var ps := AppStore.MockPayments;
    assert ps[..1][..0] == [];
    assert MonthOf(ps[0].date) == "2023-10";
    assert MonthOf(ps[1].date) == "2023-10";
    assert Totals(ps[..1], ByMonth) == [Bucket("2023-10", 300)];
    assert Totals(ps[..1], ByDate) == [Bucket("2023-10-01", 300)];
    var byMonth, byDate := Totals(ps[..1], ByMonth), Totals(ps[..1], ByDate);
    assert Keys(byMonth)[0] == "2023-10" && Keys(byDate)[0] == "2023-10-01";
    assert Keys(byMonth) == ["2023-10"] && Keys(byDate) == ["2023-10-01"];
    assert ps[..|ps| - 1] == ps[..1];
    assert Totals(ps, ByMonth) == Deposit(byMonth, "2023-10", 450);
    assert Totals(ps, ByDate) == Deposit(byDate, "2023-10-05", 450);
  }

  function ActiveCount(s: AppState): nat
  {
    |Filter(s.players, StatusIs(Active))|
  }

  function InactiveCount(s: AppState): nat
  {
    |Filter(s.players, StatusIs(Inactive))|
  }

  /** The pie chart's two slices cover every player exactly once, and the
      Dashboard's head count is their sum. */
  lemma {:induction false} StatusSlices(s: AppState)
    ensures ActiveCount(s) + InactiveCount(s) == |s.players|
    ensures Dashboard.TotalPlayers(s) == ActiveCount(s) + InactiveCount(s)
  {
    Dashboard.TotalPlayersIncludesInactive(s);
  }

  function RoleIs(r: Role): User -> bool
  {
    (u: User) => u.role == r
  }

  /** "Total Coaches": users whose role is COACH. */
  function CoachCount(users: seq<User>): nat
  {
    |Filter(users, RoleIs(Coach))|
  }

  /** The Reports page counts COACH users only, the Coaches page lists
      ADMIN users too: the two figures differ by the number of admins. */
  lemma {:induction false} CoachCountsDiffer(users: seq<User>)
    ensures CoachCount(users) + |Filter(users, RoleIs(Admin))| == |CoachesPage.ListedCoaches(users)|
    ensures CoachCount(users) <= |CoachesPage.ListedCoaches(users)|
  {
    FilterCountSplit(users, RoleIs(Coach), RoleIs(Admin), CoachesPage.IsStaff);
  }

  /** Four users with the seed's roles (coach, admin, parent, coach) hold
      two coaches and one admin. */
  lemma {:induction false} RoleCounts(us: seq<User>)
    requires |us| == 4 && us[0].role == Coach && us[1].role == Admin
    requires us[2].role == Parent && us[3].role == Coach
    ensures CoachCount(us) == 2 && |Filter(us, RoleIs(Admin))| == 1
  {
    assert us[..1][..0] == [] && us[..2][..1] == us[..1] && us[..3][..2] == us[..2] && us[..4] == us;
    assert RoleIs(Coach)(us[0]) && !RoleIs(Coach)(us[1]) && !RoleIs(Coach)(us[2]) && RoleIs(Coach)(us[3]);
    assert !RoleIs(Admin)(us[0]) && RoleIs(Admin)(us[1]) && !RoleIs(Admin)(us[2]) && !RoleIs(Admin)(us[3]);
    assert Filter(us[..1], RoleIs(Coach)) == [us[0]];
    assert Filter(us[..2], RoleIs(Coach)) == [us[0]];
    assert Filter(us[..3], RoleIs(Coach)) == [us[0]];
    assert Filter(us[..1], RoleIs(Admin)) == [];
    assert Filter(us[..2], RoleIs(Admin)) == [us[1]];
    assert Filter(us[..3], RoleIs(Admin)) == [us[1]];
  }

  /** With the seed users: Reports shows 2 coaches, the Coaches page 3. */
  lemma {:induction false} SeedCoachCounts()
    ensures CoachCount(AppStore.MockUsers) == 2
    ensures |CoachesPage.ListedCoaches(AppStore.MockUsers)| == 3
  {
    var us := AppStore.MockUsers;
    RoleCounts(us);
    CoachCountsDiffer(us);
  }

  /** "Low Stock Items": the items the Inventory page flags. */
  function LowStockCount(inventory: seq<InventoryItem>): nat
  {
    |Filter(inventory, InventoryPage.IsLow)|
  }

  /** The count over one more item goes up by one exactly when that item's
      quantity is at or below its threshold; so the count is the number of
      items at or below their threshold. */
  lemma {:induction false} LowStockStep(inventory: seq<InventoryItem>, item: InventoryItem)
    ensures LowStockCount(inventory + [item]) ==
      LowStockCount(inventory) + (if item.quantity <= item.minThreshold then 1 else 0)
  {
    assert (inventory + [item])[..|inventory|] == inventory;
  }

  /** An item is counted iff it is in stock at or below its threshold, and
      the count never exceeds the number of items. */
  lemma {:induction false} LowStockMembers(inventory: seq<InventoryItem>)
    ensures forall x :: x in Filter(inventory, InventoryPage.IsLow) <==> x in inventory && x.quantity <= x.minThreshold
    ensures LowStockCount(inventory) <= |inventory|
  {
  }

  /** Nothing is low in the seed stock, and an item brought down to its
      threshold counts. */
  lemma {:induction false} LowStockFigures(item: InventoryItem)
    ensures LowStockCount(AppStore.MockInventory) == 0
    ensures item.quantity == item.minThreshold ==> LowStockCount([item]) == 1
  {
    var inv := AppStore.MockInventory;
    FilterKeepsNone(inv, InventoryPage.IsLow);
    assert [item][..0] == [];
  }
}
