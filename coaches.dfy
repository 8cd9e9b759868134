/** The Coaches page (pages/Coaches.tsx): who is listed as staff, the
    sessions each one ran, the hours logged and the estimated pay. Hours and
    pay are exact rationals here. */
module CoachesPage {
  import opened Common
  import opened Types
  import AppStore

  function IsStaff(u: User): bool
  {
    u.role == Coach || u.role == Admin
  }

  /** `coaches`: the users the page lists, in user order. */
  function ListedCoaches(users: seq<User>): seq<User>
  {
    Filter(users, IsStaff)
  }

  /** The page lists exactly the COACH and ADMIN users, keeping their order;
      parents never appear. */
  lemma {:induction false} ListedCoachesExact(users: seq<User>)
    ensures forall u :: u in ListedCoaches(users) <==> u in users && (u.role == Coach || u.role == Admin)
    ensures IsSubsequence(ListedCoaches(users), users)
  {
    FilterIsSubsequence(users, IsStaff);
  }

  function CoachedBy(id: string): Session -> bool
  {
    (x: Session) => x.coachId == id
  }

  /** A coach's sessions; "Sessions Taken" is their number. */
  function CoachSessions(sessions: seq<Session>, id: string): seq<Session>
  {
    Filter(sessions, CoachedBy(id))
  }

  function Minutes(x: Session): int
  {
    x.durationMinutes
  }

  /** `totalHours`: the sum of `durationMinutes / 60`. */
  function TotalHours(xs: seq<Session>): real
  {
    if xs == [] then 0.0 else TotalHours(xs[..|xs| - 1]) + (xs[|xs| - 1].durationMinutes as real) / 60.0
  }

  /** `coach.hourlyRate || 0`. */
  function RateOf(coach: User): int
  {
    coach.hourlyRate.GetOr(0)
  }

  /** `estimatedPay`. */
  function EstimatedPay(coach: User, sessions: seq<Session>): real
  {
    TotalHours(CoachSessions(sessions, coach.id)) * (RateOf(coach) as real)
  }

  /** Hours are the total minutes over sixty. */
  lemma {:induction false} TotalHoursIsMinutes(xs: seq<Session>)
    ensures TotalHours(xs) == (Sum(xs, Minutes) as real) / 60.0
  {
    if xs != [] {
      TotalHoursIsMinutes(xs[..|xs| - 1]);
    }
  }

  /** Pay is the coach's minutes times the rate, over sixty; it is never
      negative when durations and the rate are not, and it is zero for a
      user without a rate. */
  lemma {:induction false} EstimatedPayMeaning(coach: User, sessions: seq<Session>)
    ensures EstimatedPay(coach, sessions) ==
      (Sum(CoachSessions(sessions, coach.id), Minutes) * RateOf(coach)) as real / 60.0
    ensures coach.hourlyRate.None? ==> EstimatedPay(coach, sessions) == 0.0
    ensures RateOf(coach) >= 0 && (forall x :: x in sessions ==> x.durationMinutes >= 0) ==>
      EstimatedPay(coach, sessions) >= 0.0
  {
    var mine := CoachSessions(sessions, coach.id);
    TotalHoursIsMinutes(mine);
    if forall x :: x in sessions ==> x.durationMinutes >= 0 {
      SumNonNegative(mine);
    }
  }

  lemma {:induction false} SumNonNegative(xs: seq<Session>)
    requires forall x :: x in xs ==> x.durationMinutes >= 0
    ensures Sum(xs, Minutes) >= 0
  {
    if xs != [] {
      SumNonNegative(xs[..|xs| - 1]);
    }
  }

  /** On the seed data Coach Mike (rate 50) ran one 90-minute session: one
      session, 1.5 hours, pay 75; Admin Sarah has no rate and is paid 0. */
  lemma {:induction false} SeedCoachFigures(today: string, tomorrow: string)
    ensures |CoachSessions(AppStore.MockSessions(today, tomorrow), "u1")| == 1
    ensures TotalHours(CoachSessions(AppStore.MockSessions(today, tomorrow), "u1")) == 1.5
    ensures EstimatedPay(AppStore.MockUsers[0], AppStore.MockSessions(today, tomorrow)) == 75.0
    ensures EstimatedPay(AppStore.MockUsers[1], AppStore.MockSessions(today, tomorrow)) == 0.0
  {
    var ss := AppStore.MockSessions(today, tomorrow);
    assert ss[..1][..0] == [];
    assert Filter(ss[..1], CoachedBy("u1")) == [ss[0]];
    assert !CoachedBy("u1")(ss[1]);
    assert CoachSessions(ss, "u1") == [ss[0]];
    assert [ss[0]][..0] == [];
  }
}
