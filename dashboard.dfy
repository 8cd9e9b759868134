/** The Dashboard's figures (pages/Dashboard.tsx): head counts, today's
    attendance, outstanding fees and the revenue-by-date chart. */
module Dashboard {
  import opened Common
  import opened Types
  import opened Revenue

  /** `totalPlayers` counts every player, active or not. */
  function TotalPlayers(s: AppState): nat
  {
    |s.players|
  }

  /** `activeGroups` counts every batch. */
  function ActiveGroups(s: AppState): nat
  {
    |s.batches|
  }

  /** Every player is either active or inactive, so the head count is the
      sum of the two status groups. */
  lemma {:induction false} TotalPlayersIncludesInactive(s: AppState)
    ensures TotalPlayers(s) ==
      |Filter(s.players, StatusIs(Active))| + |Filter(s.players, StatusIs(Inactive))|
  {
    FilterComplement(s.players, StatusIs(Active), StatusIs(Inactive));
  }

  function OnDate(day: string): Session -> bool
  {
    (x: Session) => x.date == day
  }

  /** `todaysSessionIds`. */
  function SessionIdsOn(sessions: seq<Session>, today: string): (ids: seq<string>)
    ensures forall id :: id in ids <==> exists x :: x in sessions && x.date == today && x.id == id
  {
    var on := Filter(sessions, OnDate(today));
    var ids := seq(|on|, i requires 0 <= i < |on| => on[i].id);
    assert forall x :: x in sessions && x.date == today ==> x.id in ids by {
      forall x | x in sessions && x.date == today ensures x.id in ids {
        assert OnDate(today)(x);
        var i :| 0 <= i < |on| && on[i] == x;
        assert ids[i] == x.id;
      }
    }
    assert forall id :: id in ids ==> exists x :: x in sessions && x.date == today && x.id == id by {
      forall id | id in ids ensures exists x :: x in sessions && x.date == today && x.id == id {
        var i :| 0 <= i < |ids| && ids[i] == id;
        assert on[i] in on;
        assert OnDate(today)(on[i]);
      }
    }
    ids
  }

  function PresentIn(ids: seq<string>): AttendanceRecord -> bool
  {
    (a: AttendanceRecord) => a.sessionId in ids && a.status == Present
  }

  /** `todaysAttendanceCount`: PRESENT records of sessions dated today. */
  function PresentToday(s: AppState, today: string): nat
  {
    |Filter(s.attendance, PresentIn(SessionIdsOn(s.sessions, today)))|
  }

  /** A record is counted iff it is PRESENT and belongs to some session
      dated today. */
  lemma {:induction false} PresentTodayCounts(s: AppState, today: string)
    ensures forall a :: a in Filter(s.attendance, PresentIn(SessionIdsOn(s.sessions, today))) <==>
      a in s.attendance && a.status == Present &&
      exists x :: x in s.sessions && x.date == today && x.id == a.sessionId
    ensures PresentToday(s, today) <= |s.attendance|
  {
  }

  /** LATE, ABSENT and EXCUSED marks never raise the count. */
  lemma {:induction false} NotPresentNotCounted(s: AppState, today: string, r: AttendanceRecord)
    requires r.status != Present
    ensures PresentToday(s.(attendance := s.attendance + [r]), today) == PresentToday(s, today)
  {
    assert (s.attendance + [r])[..|s.attendance|] == s.attendance;
  }

  const InDebt: Player -> bool := (p: Player) => p.balance < 0

  /** `pendingFeesCount`. */
  function PendingFeesCount(s: AppState): nat
  {
    |Filter(s.players, InDebt)|
  }

  /** What a player owes: `Math.abs(balance)` for a negative balance. */
  function Arrears(p: Player): int
  {
    if p.balance < 0 then -p.balance else 0
  }

  /** `totalPendingAmount`. */
  function TotalPendingAmount(s: AppState): int
  {
    Sum(s.players, Arrears)
  }

  /** The outstanding total is never negative, is at least one per debtor,
      and is zero exactly when nobody owes anything. */
  lemma {:induction false} PendingAmountBounds(ps: seq<Player>)
    ensures Sum(ps, Arrears) >= |Filter(ps, InDebt)|
    ensures Sum(ps, Arrears) >= 0
    ensures Sum(ps, Arrears) == 0 <==> |Filter(ps, InDebt)| == 0
  {
    if ps != [] {
      PendingAmountBounds(ps[..|ps| - 1]);
    }
  }

  /** `revenueData`: the ledger folded into per-date buckets; the search for
      an existing bucket is `acc.find`, the update in place is
      `existing.amount += …`, and a new date is `acc.push`. The chart lists
      each date once in first-occurrence order, each bucket holds that
      date's total, and the buckets add up to the whole ledger. */
  method RevenueData(payments: seq<Payment>) returns (chart: seq<Bucket>)
    ensures chart == Totals(payments, ByDate)
    ensures Keys(chart) == Dedup(KeyList(payments, ByDate))
    ensures Distinct(Keys(chart))
    ensures forall i :: 0 <= i < |chart| ==> chart[i].amount == Sum(payments, AmountAt(ByDate, chart[i].key))
    ensures Sum(chart, BucketAmount) == Sum(payments, PayAmount)
  {
    chart := [];
    var i := 0;
    while i < |payments|
      invariant 0 <= i <= |payments|
      invariant chart == Totals(payments[..i], ByDate)
    {
      var p := payments[i];
      var j := 0;
      while j < |chart| && chart[j].key != p.date
        invariant 0 <= j <= |chart|
        invariant forall m :: 0 <= m < j ==> chart[m].key != p.date
      {
        j := j + 1;
      }
      if j < |chart| {
        IndexOfFirst(Keys(chart), p.date, j);
        chart := chart[j := chart[j].(amount := chart[j].amount + p.amount)];
      } else {
        assert p.date !in Keys(chart);
        chart := chart + [Bucket(p.date, p.amount)];
      }
      assert payments[..i + 1][..i] == payments[..i];
      i := i + 1;
    }
    assert payments[..i] == payments;
    TotalsFacts(payments, ByDate);
  }
}
