/** The Schedule page (pages/Schedule.tsx): the "Schedule Session" form
    with its fallbacks, and the day-by-day listing, which groups the
    sessions by date into a dictionary and shows the dates sorted. */
module SchedulePage {
  import opened Common
  import opened Text
  import opened Types
  import opened AppStore
  import Reports

  /** The form's `Partial<Session>`: the date, time and court always hold a
      string; a number field is `None` when `parseInt` gave NaN. */
  datatype SessionForm = SessionForm(
    date: string,
    time: string,
    durationMinutes: Option<int>,
    court: string,
    capacity: Option<int>)

  /** The form as the page opens it. */
  function BlankForm(today: string): (f: SessionForm)
    ensures f.date == today && f.time == "16:00" && f.court == "Court A"
    ensures f.durationMinutes == Some(60) && f.capacity == Some(6)
  {
    SessionForm(today, "16:00", Some(60), "Court A", Some(6))
  }

  /** The session `handleAddSession` dispatches. */
  function NewSession(f: SessionForm, currentUser: Option<User>, now: nat): (x: Session)
    ensures x.id == "s" + NatToString(now)
    ensures x.date == f.date && x.time == f.time
    ensures x.durationMinutes == NumberOr(f.durationMinutes, 60)
    ensures x.capacity == NumberOr(f.capacity, 6)
    ensures x.court == OrElse(Some(f.court), "Court A")
    ensures x.coachId == UserIdOr(currentUser, "u1")
    ensures x.registeredPlayerIds == [] && x.batchId.None?
  {
    Session("s" + NatToString(now), f.date, f.time, NumberOr(f.durationMinutes, 60),
      UserIdOr(currentUser, "u1"), OrElse(Some(f.court), "Court A"), NumberOr(f.capacity, 6), [], None)
  }

  /** Zero or unparsable numbers fall back to 60 minutes and 6 places, and a
      missing user makes u1 the coach; nothing bounds the capacity. */
  lemma {:induction false} NewSessionFallbacks(f: SessionForm, now: nat)
    ensures f.durationMinutes in {None, Some(0)} ==> NewSession(f, None, now).durationMinutes == 60
    ensures f.capacity in {None, Some(0)} ==> NewSession(f, None, now).capacity == 6
    ensures f.capacity == Some(-1) ==> NewSession(f, None, now).capacity == -1
    ensures NewSession(f, None, now).coachId == "u1"
  {
  }

  /** A scheduled session belongs to no batch, so adding it changes no
      batch's attendance rate on the Reports page. */
  lemma {:induction false} NewSessionKeepsRates(s: AppState, f: SessionForm, now: nat, b: Batch)
    ensures Reports.BatchRate(Reduce(s, AddSession(NewSession(f, s.currentUser, now))), b) ==
            Reports.BatchRate(s, b)
  {
    Reports.UnbatchedSessionKeepsRates(s, NewSession(f, s.currentUser, now), b);
  }

  function SessionDate(x: Session): string
  {
    x.date
  }

  /** The date of every session, in list order. */
  function Dates(sessions: seq<Session>): (ds: seq<string>)
    ensures |ds| == |sessions|
    ensures forall i :: 0 <= i < |sessions| ==> ds[i] == sessions[i].date
  {
    seq(|sessions|, i requires 0 <= i < |sessions| => sessions[i].date)
  }

  /** The sessions held on day `d`, in list order. */
  function Group(sessions: seq<Session>, d: string): seq<Session>
  {
    Filter(sessions, KeyIs(SessionDate, d))
  }

  lemma {:induction false} GroupAppend(sessions: seq<Session>, x: Session)
    ensures forall d :: Group(sessions + [x], d) == Group(sessions, d) + (if x.date == d then [x] else [])
    ensures Dates(sessions + [x]) == Dates(sessions) + [x.date]
  {
    assert (sessions + [x])[..|sessions|] == sessions;
    forall d ensures Group(sessions + [x], d) == Group(sessions, d) + (if x.date == d then [x] else []) {
      assert KeyIs(SessionDate, d)(x) <==> SessionDate(x) == d;
    }
  }

  /** A date is listed iff some session is held on it. */
  lemma {:induction false} DatesMeaning(sessions: seq<Session>)
    ensures forall d :: d in Dates(sessions) <==> exists x :: x in sessions && x.date == d
  {
    forall d | d in Dates(sessions) ensures exists x :: x in sessions && x.date == d {
      var i :| 0 <= i < |sessions| && Dates(sessions)[i] == d;
      assert sessions[i] in sessions;
    }
    forall x | x in sessions ensures x.date in Dates(sessions) {
      var i :| 0 <= i < |sessions| && sessions[i] == x;
      assert Dates(sessions)[i] == x.date;
    }
  }

  lemma {:induction false} GroupEmpty(sessions: seq<Session>, d: string)
    requires d !in Dates(sessions)
    ensures Group(sessions, d) == []
  {
    forall i | 0 <= i < |sessions| ensures !KeyIs(SessionDate, d)(sessions[i]) {
      assert Dates(sessions)[i] == SessionDate(sessions[i]);
    }
    FilterKeepsNone(sessions, KeyIs(SessionDate, d));
  }

  /** `groups`, with its key-insertion order `order`, groups `sessions` by
      date. */
  ghost predicate Grouped(groups: map<string, seq<Session>>, order: seq<string>, sessions: seq<Session>)
  {
    && order == Dedup(Dates(sessions))
    && (forall d :: d in groups <==> d in order)
    && (forall d :: d in groups ==> groups[d] == Group(sessions, d))
  }

  /** Pushing `x` keeps the key order the first-occurrence order of the
      dates: a date is added at the end only the first time it is met. */
  lemma {:induction false} GroupOrderStep(order: seq<string>, sessions: seq<Session>, x: Session)
    requires order == Dedup(Dates(sessions))
    ensures Dedup(Dates(sessions + [x])) == if x.date in order then order else order + [x.date]
  {
    assert Dates(sessions + [x]) == Dates(sessions) + [x.date];
    DedupSnoc(Dates(sessions), x.date);
  }

  /** Storing `Group(sessions, x.date) + [x]` under `x.date` keeps every
      list the group of its date. */
  lemma {:induction false} GroupContentsStep(groups: map<string, seq<Session>>, sessions: seq<Session>, x: Session, v: seq<Session>)
    requires forall d :: d in groups ==> groups[d] == Group(sessions, d)
    requires v == Group(sessions, x.date) + [x]
    ensures forall d :: d in groups[x.date := v] ==> groups[x.date := v][d] == Group(sessions + [x], d)
  {
    GroupAppend(sessions, x);
  }

  /** One turn of the `reduce` for a date already seen: `x` is pushed onto
      that date's list. */
  lemma {:induction false} GroupStepSeen(groups: map<string, seq<Session>>, order: seq<string>, sessions: seq<Session>, x: Session)
    requires Grouped(groups, order, sessions) && x.date in groups
    ensures Grouped(groups[x.date := groups[x.date] + [x]], order, sessions + [x])
  {
    GroupOrderStep(order, sessions, x);
    GroupContentsStep(groups, sessions, x, groups[x.date] + [x]);
  }

  /** One turn of the `reduce` for a new date: its list is created holding
      `x`, and the date is the newest key. */
  lemma {:induction false} GroupStepNew(groups: map<string, seq<Session>>, order: seq<string>, sessions: seq<Session>, x: Session)
    requires Grouped(groups, order, sessions) && x.date !in groups
    ensures Grouped(groups[x.date := [x]], order + [x.date], sessions + [x])
  {
    assert x.date !in Dates(sessions) by {
      assert x.date !in Dedup(Dates(sessions));
    }
    GroupEmpty(sessions, x.date);
    GroupOrderStep(order, sessions, x);
    GroupContentsStep(groups, sessions, x, [x]);
  }

  /** `groupedSessions` with its key order: the loop creates a date's list
      the first time it meets the date and pushes every session onto the
      list of its own date. */
  method GroupSessions(sessions: seq<Session>) returns (groups: map<string, seq<Session>>, order: seq<string>)
    ensures order == Dedup(Dates(sessions)) && Distinct(order)
    ensures forall d :: d in groups <==> d in order
    ensures forall d :: d in groups ==> groups[d] == Group(sessions, d)
  {
    groups, order := map[], [];
    for i := 0 to |sessions|
      invariant Grouped(groups, order, sessions[..i])
    {
      var x := sessions[i];
      assert sessions[..i + 1] == sessions[..i] + [x];
      if x.date in groups {
        GroupStepSeen(groups, order, sessions[..i], x);
        groups := groups[x.date := groups[x.date] + [x]];
      } else {
        GroupStepNew(groups, order, sessions[..i], x);
        groups := groups[x.date := [x]];
        order := order + [x.date];
      }
    }
    assert sessions[..|sessions|] == sessions;
    DedupDistinct(Dates(sessions));
  }

  /** Every session sits in the group of its own date and in no other, and
      that date is one of the keys. */
  lemma {:induction false} EachSessionOnce(sessions: seq<Session>, x: Session)
    requires x in sessions
    ensures x.date in Dedup(Dates(sessions))
    ensures forall d :: x in Group(sessions, d) <==> d == x.date
  {
    var i :| 0 <= i < |sessions| && sessions[i] == x;
    assert Dates(sessions)[i] == x.date;
    forall d ensures x in Group(sessions, d) <==> d == x.date {
      assert KeyIs(SessionDate, d)(x) <==> SessionDate(x) == d;
    }
  }

  /** A group lists its sessions in their order in the store. */
  lemma {:induction false} GroupKeepsOrder(sessions: seq<Session>, d: string)
    ensures IsSubsequence(Group(sessions, d), sessions)
  {
    FilterIsSubsequence(sessions, KeyIs(SessionDate, d));
  }

  /** The group sizes over all keys add up to the number of sessions. */
  lemma {:induction false} GroupSizesCoverAll(sessions: seq<Session>)
    ensures GroupSizes(sessions, SessionDate, Dedup(Dates(sessions))) == |sessions|
  {
    var keys := Dedup(Dates(sessions));
    DedupDistinct(Dates(sessions));
    GroupSizesCount(sessions, SessionDate, keys);
    forall i | 0 <= i < |sessions| ensures KeyIn(SessionDate, keys)(sessions[i]) {
      assert Dates(sessions)[i] == SessionDate(sessions[i]);
    }
    FilterKeepsAll(sessions, KeyIn(SessionDate, keys));
  }

  /** `sortedDates`: the distinct dates in ascending string order. */
  function SortedDates(sessions: seq<Session>): (dates: seq<string>)
    ensures forall i, j :: 0 <= i < j < |dates| ==> LexLess(dates[i], dates[j])
    ensures forall d :: d in dates <==> exists x :: x in sessions && x.date == d
  {
    var keys := Dedup(Dates(sessions));
    DedupDistinct(Dates(sessions));
    SortDistinctIsStrict(keys);
    SortStringsMembers(keys);
    DatesMeaning(sessions);
    SortStrings(keys)
  }

  /** With ISO dates the listing runs day by day into the future. */
  lemma {:induction false} SortedDatesAreChronological(sessions: seq<Session>, i: nat, j: nat)
    requires forall x :: x in sessions ==> IsoDate(x.date)
    requires i < j < |SortedDates(sessions)|
    ensures IsoDate(SortedDates(sessions)[i]) && IsoDate(SortedDates(sessions)[j])
    ensures Earlier(SortedDates(sessions)[i], SortedDates(sessions)[j])
  {
    var dates := SortedDates(sessions);
    assert dates[i] in dates && dates[j] in dates;
    IsoDateOrder(dates[i], dates[j]);
  }

  /** The page's modal and form. */
  class SchedulePage {
    var showAddModal: bool
    var form: SessionForm

    constructor (today: string)
      ensures !showAddModal && form == BlankForm(today)
    {
      showAddModal := false;
      form := BlankForm(today);
    }

    /** Submitting the form: dispatch ADD_SESSION and close the modal; the
        form keeps what was typed. */
    method AddSession(store: Store, now: nat)
      modifies this, store
      ensures store.state ==
        Reduce(old(store.state), Action.AddSession(NewSession(old(form), old(store.state.currentUser), now)))
      ensures !showAddModal && form == old(form)
    {
      store.Dispatch(Action.AddSession(NewSession(form, store.state.currentUser, now)));
      showAddModal := false;
    }
  }
}
