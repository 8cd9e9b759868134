/** The store (store.tsx): the seed snapshot, the closed action vocabulary,
    the reducer `appReducer` as the total step function `Reduce`, the
    `login` rule, and the `useReducer` state cell as the class `Store`. */
module AppStore {
  import opened Common
  import opened Text
  import opened Types

  // ---------------------------------------------------------------------
  // Seed data (MOCK_*). The two seeded sessions are dated today and
  // tomorrow by the clock; the dates are parameters here.

  const MockUsers: seq<User> := [
    User("u1", "Coach Mike", "coach@lolo.com", Coach,
      Some("https://ui-avatars.com/api/?name=Coach+Mike"), Some("555-1010"), Some(50)),
    User("u2", "Admin Sarah", "admin@lolo.com", Admin,
      Some("https://ui-avatars.com/api/?name=Admin+Sarah"), Some("555-2020"), None),
    User("u3", "Parent John", "parent@lolo.com", Parent,
      Some("https://ui-avatars.com/api/?name=Parent+John"), None, None),
    User("u4", "Coach Lisa", "lisa@lolo.com", Coach,
      Some("https://ui-avatars.com/api/?name=Coach+Lisa"), Some("555-3030"), Some(55))
  ]

  const MockBatches: seq<Batch> := [
    Batch("b1", "Junior Beginners", Badminton, "u1", "Mon/Wed 16:00", 300),
    Batch("b2", "Advanced Youth", Badminton, "u4", "Tue/Thu 16:00", 450),
    Batch("b3", "Adult Volleyball", Volleyball, "u1", "Fri 20:00", 200)
  ]

  const MockPlayers: seq<Player> := [
    Player("p1", "STU-23001", "Alice Chen", "2012-05-14", "parent.chen@example.com", "555-0101",
      Some("Mrs. Chen"), Some("555-9999"), "https://ui-avatars.com/api/?name=Alice+Chen&background=random",
      300, 0, "2023-01-10", Active, Some("b1")),
    Player("p2", "STU-23002", "Bob Smith", "2014-08-22", "parent.smith@example.com", "555-0102",
      Some("Mr. Smith"), Some("555-8888"), "https://ui-avatars.com/api/?name=Bob+Smith&background=random",
      300, -300, "2023-03-15", Active, Some("b1")),
    Player("p3", "STU-22045", "Charlie Kim", "2011-11-03", "parent.kim@example.com", "555-0103",
      None, None, "https://ui-avatars.com/api/?name=Charlie+Kim&background=random",
      450, 0, "2022-09-01", Active, Some("b2")),
    Player("p4", "STU-23089", "Diana Prince", "2013-01-30", "parent.prince@example.com", "555-0104",
      None, None, "https://ui-avatars.com/api/?name=Diana+Prince&background=random",
      300, 150, "2023-06-20", Inactive, Some("b1"))
  ]

  function MockSessions(today: string, tomorrow: string): seq<Session>
  {
    [ Session("s1", today, "16:00", 90, "u1", "Court A", 10, ["p1", "p2"], Some("b1")),
      Session("s2", tomorrow, "16:00", 90, "u4", "Court B", 10, ["p3"], Some("b2")) ]
  }

  const MockLeads: seq<Lead> := [
    Lead("l1", "Evan Wright", "555-1234", Badminton, "Interested in junior batch", "2023-10-20", New),
    Lead("l2", "Sarah Connor", "555-5678", Volleyball, "Looking for adult classes", "2023-10-21", Contacted)
  ]

  const MockAttendance: seq<AttendanceRecord> := [
    AttendanceRecord("a1", "s1", "p1", Present, Some("Great footwork today.")),
    AttendanceRecord("a2", "s1", "p2", Late, Some("Forgot racket."))
  ]

  const MockPayments: seq<Payment> := [
    Payment("pay1", "p1", "2023-10-01", 300, Transfer, Some("TXN123456")),
    Payment("pay2", "p3", "2023-10-05", 450, Cash, None)
  ]

  const MockAnnouncements: seq<Announcement> := [
    Announcement("ann1", "Tournament Registration", "Please register for the City Open by Friday.",
      "2023-10-20", Everyone, "u1")
  ]

  const MockTournaments: seq<Tournament> := [
    Tournament("t1", "City Junior Open", "2023-11-15", "Central Sports Hall"),
    Tournament("t2", "Winter Cup", "2023-12-10", "LOLO Arena")
  ]

  const MockResults: seq<TournamentResult> := [
    TournamentResult("r1", "t1", "p3", "U13 Boys Singles", Winner),
    TournamentResult("r2", "t1", "p1", "U11 Girls Singles", SemiFinalist)
  ]

  const MockInventory: seq<InventoryItem> := [
    InventoryItem("i1", "Yonex Mavis 350 (Tube)", Consumable, 12, 5, "2023-10-25"),
    InventoryItem("i2", "Yonex Nanoflare Racket", Equipment, 4, 2, "2023-10-20"),
    InventoryItem("i3", "LOLO Academy T-Shirt (M)", Apparel, 25, 10, "2023-10-15")
  ]

  const MockSettings: Settings :=
    Settings("LOLO Academy Manager", "123 Sports Drive, Male City", "+960 999-9999", 300, 5, "1.2.0", None)

  function InitialState(today: string, tomorrow: string): AppState
  {
    AppState(None, MockUsers, MockPlayers, MockSessions(today, tomorrow), MockAttendance, MockPayments,
      MockAnnouncements, MockBatches, MockLeads, MockTournaments, MockResults, MockInventory, MockSettings)
  }

  // ---------------------------------------------------------------------
  // Actions and the reducer.

  /** The sixteen tagged actions, plus any other action object, which the
      reducer's `default` branch answers with the state unchanged. */
  datatype Action =
    | Login(user: User)
    | Logout
    | AddPlayer(player: Player)
    | UpdatePlayer(player: Player)
    | AddBatch(batch: Batch)
    | AddLead(lead: Lead)
    | UpdateLeadStatus(leadId: string, status: LeadStatus)
    | AddSession(session: Session)
    | AddPayment(payment: Payment)
    | AddAnnouncement(announcement: Announcement)
    | UpdateAttendance(record: AttendanceRecord)
    | DeletePlayer(playerId: string)
    | AddTournament(tournament: Tournament)
    | AddResult(result: TournamentResult)
    | UpdateInventory(item: InventoryItem)
    | UpdateSettings(settings: Settings)
    | Unrecognized(tag: string)

  /** The key of the attendance upsert. */
  function PairOf(a: AttendanceRecord): (string, string)
  {
    (a.sessionId, a.playerId)
  }

  function SamePair(rec: AttendanceRecord): AttendanceRecord -> bool
  {
    (a: AttendanceRecord) => PairOf(a) == PairOf(rec)
  }

  function Pairs(att: seq<AttendanceRecord>): (ps: seq<(string, string)>)
    ensures |ps| == |att|
    ensures forall i :: 0 <= i < |att| ==> ps[i] == PairOf(att[i])
  {
    seq(|att|, i requires 0 <= i < |att| => PairOf(att[i]))
  }

  /** UPDATE_ATTENDANCE: replace every record of the payload's pair when one
      exists, otherwise append the payload. */
  function Upsert(att: seq<AttendanceRecord>, rec: AttendanceRecord): seq<AttendanceRecord>
  {
    if Find(att, SamePair(rec)).Some? then
      seq(|att|, i requires 0 <= i < |att| => if SamePair(rec)(att[i]) then rec else att[i])
    else
      att + [rec]
  }

  function IdIs(id: string): Player -> bool
  {
    (p: Player) => p.id == id
  }

  function IdIsNot(id: string): Player -> bool
  {
    (p: Player) => p.id != id
  }

  /** ADD_PAYMENT's side effect on the roster. */
  function Credit(players: seq<Player>, pay: Payment): seq<Player>
  {
    seq(|players|, i requires 0 <= i < |players| =>
      if players[i].id == pay.playerId then players[i].(balance := players[i].balance + pay.amount)
      else players[i])
  }

  /** appReducer. */
  function Reduce(s: AppState, a: Action): AppState
  {
    match a
    case Login(u) => s.(currentUser := Some(u))
    case Logout => s.(currentUser := None)
    case AddPlayer(p) => s.(players := s.players + [p])
    case UpdatePlayer(p) =>
      s.(players := seq(|s.players|, i requires 0 <= i < |s.players| =>
        if s.players[i].id == p.id then p else s.players[i]))
    case AddBatch(b) => s.(batches := s.batches + [b])
    case AddLead(l) => s.(leads := s.leads + [l])
    case UpdateLeadStatus(id, st) =>
      s.(leads := seq(|s.leads|, i requires 0 <= i < |s.leads| =>
        if s.leads[i].id == id then s.leads[i].(status := st) else s.leads[i]))
    case AddSession(x) => s.(sessions := s.sessions + [x])
    case AddPayment(pay) => s.(payments := s.payments + [pay], players := Credit(s.players, pay))
    case AddAnnouncement(x) => s.(announcements := [x] + s.announcements)
    case UpdateAttendance(rec) => s.(attendance := Upsert(s.attendance, rec))
    case DeletePlayer(id) => s.(players := Filter(s.players, IdIsNot(id)))
    case AddTournament(t) => s.(tournaments := s.tournaments + [t])
    case AddResult(r) => s.(tournamentResults := s.tournamentResults + [r])
    case UpdateInventory(item) =>
      s.(inventory := seq(|s.inventory|, i requires 0 <= i < |s.inventory| =>
        if s.inventory[i].id == item.id then item else s.inventory[i]))
    case UpdateSettings(x) => s.(settings := x)
    case Unrecognized(_) => s
  }

  /** The state after a run of actions, dispatched in order. */
  function Run(s: AppState, actions: seq<Action>): AppState
  {
    if actions == [] then s else Reduce(Run(s, actions[..|actions| - 1]), actions[|actions| - 1])
  }

  // ---------------------------------------------------------------------
  // What each action touches.

  /** The thirteen fields of the state. */
  datatype Field =
    | CurrentUserField | UsersField | PlayersField | SessionsField | AttendanceField
    | PaymentsField | AnnouncementsField | BatchesField | LeadsField | TournamentsField
    | ResultsField | InventoryField | SettingsField

  /** `s` and `t` hold the same value in field `f`. */
  predicate Agree(s: AppState, t: AppState, f: Field)
  {
    match f
    case CurrentUserField => s.currentUser == t.currentUser
    case UsersField => s.users == t.users
    case PlayersField => s.players == t.players
    case SessionsField => s.sessions == t.sessions
    case AttendanceField => s.attendance == t.attendance
    case PaymentsField => s.payments == t.payments
    case AnnouncementsField => s.announcements == t.announcements
    case BatchesField => s.batches == t.batches
    case LeadsField => s.leads == t.leads
    case TournamentsField => s.tournaments == t.tournaments
    case ResultsField => s.tournamentResults == t.tournamentResults
    case InventoryField => s.inventory == t.inventory
    case SettingsField => s.settings == t.settings
  }

  /** The fields an action may write: its own collection, and for a payment
      also the roster. */
  function Touched(a: Action): set<Field>
  {
    match a
    case Login(_) => {CurrentUserField}
    case Logout => {CurrentUserField}
    case AddPlayer(_) => {PlayersField}
    case UpdatePlayer(_) => {PlayersField}
    case AddBatch(_) => {BatchesField}
    case AddLead(_) => {LeadsField}
    case UpdateLeadStatus(_, _) => {LeadsField}
    case AddSession(_) => {SessionsField}
    case AddPayment(_) => {PaymentsField, PlayersField}
    case AddAnnouncement(_) => {AnnouncementsField}
    case UpdateAttendance(_) => {AttendanceField}
    case DeletePlayer(_) => {PlayersField}
    case AddTournament(_) => {TournamentsField}
    case AddResult(_) => {ResultsField}
    case UpdateInventory(_) => {InventoryField}
    case UpdateSettings(_) => {SettingsField}
    case Unrecognized(_) => {}
  }

  /** Every action leaves the fields it does not touch as they were; in
      particular `users` is never written, and an unrecognised action
      changes nothing. */
  lemma {:induction false} ReduceFrame(s: AppState, a: Action)
    ensures forall f :: f !in Touched(a) ==> Agree(s, Reduce(s, a), f)
    ensures UsersField !in Touched(a)
    ensures a.Unrecognized? ==> Reduce(s, a) == s
  {
  }

  /** States that agree on every field are equal. */
  lemma {:induction false} AgreeEverywhere(s: AppState, t: AppState)
    requires forall f :: Agree(s, t, f)
    ensures s == t
  {
    assert Agree(s, t, CurrentUserField) && Agree(s, t, UsersField) && Agree(s, t, PlayersField);
    assert Agree(s, t, SessionsField) && Agree(s, t, AttendanceField) && Agree(s, t, PaymentsField);
    assert Agree(s, t, AnnouncementsField) && Agree(s, t, BatchesField) && Agree(s, t, LeadsField);
    assert Agree(s, t, TournamentsField) && Agree(s, t, ResultsField) && Agree(s, t, InventoryField);
    assert Agree(s, t, SettingsField);
  }

  /** LOGIN and LOGOUT write only the signed-in user. */
  lemma {:induction false} SessionActions(s: AppState, u: User)
    ensures Reduce(s, Login(u)) == s.(currentUser := Some(u))
    ensures Reduce(s, Logout).currentUser.None?
    ensures Reduce(Reduce(s, Login(u)), Logout) == s.(currentUser := None)
  {
  }

  /** ADD_PAYMENT appends exactly one ledger entry and credits the amount to
      every player with the payment's player id, changing nothing else about
      them; with no such player only the ledger grows. */
  lemma {:induction false} AddPaymentCredits(s: AppState, pay: Payment)
    ensures Reduce(s, AddPayment(pay)).payments == s.payments + [pay]
    ensures |Reduce(s, AddPayment(pay)).players| == |s.players|
    ensures forall i :: 0 <= i < |s.players| ==>
      && Reduce(s, AddPayment(pay)).players[i].(balance := s.players[i].balance) == s.players[i]
      && Reduce(s, AddPayment(pay)).players[i].balance ==
         s.players[i].balance + (if s.players[i].id == pay.playerId then pay.amount else 0)
    ensures (forall i :: 0 <= i < |s.players| ==> s.players[i].id != pay.playerId) ==>
      Reduce(s, AddPayment(pay)) == s.(payments := s.payments + [pay])
  {
  }

  /** The payments a run of actions records, in order. */
  function PaymentsIn(actions: seq<Action>): (ps: seq<Payment>)
    ensures |ps| <= |actions|
  {
    if actions == [] then []
    else
      var last := actions[|actions| - 1];
      PaymentsIn(actions[..|actions| - 1]) + (if last.AddPayment? then [last.payment] else [])
  }

  /** The amount a payment credits to the player with id `id`. */
  function AmountFor(id: string): Payment -> int
  {
    (p: Payment) => if p.playerId == id then p.amount else 0
  }

  /** Actions that keep every existing player at its index. */
  predicate KeepsRoster(a: Action)
  {
    !a.UpdatePlayer? && !a.DeletePlayer?
  }

  /** Ledger and balances stay consistent: after any run of actions that
      neither replaces nor deletes players, each existing player's balance
      has grown by exactly the amounts recorded for its id, nothing else
      about it has changed, and the ledger is the old one followed by the
      run's payments. */
  lemma {:induction false} RunLedger(s: AppState, actions: seq<Action>, i: nat)
    requires i < |s.players|
    requires forall k :: 0 <= k < |actions| ==> KeepsRoster(actions[k])
    ensures i < |Run(s, actions).players|
    ensures Run(s, actions).players[i] ==
      s.players[i].(balance := s.players[i].balance + Sum(PaymentsIn(actions), AmountFor(s.players[i].id)))
    ensures Run(s, actions).payments == s.payments + PaymentsIn(actions)
  {
    if actions != [] {
      var n := |actions| - 1;
      var front := actions[..n];
      var id := s.players[i].id;
      RunLedger(s, front, i);
      StepLedger(Run(s, front), actions[n], i);
      var extra := if actions[n].AddPayment? then [actions[n].payment] else [];
      assert PaymentsIn(actions) == PaymentsIn(front) + extra;
      SumAppend(PaymentsIn(front), extra, AmountFor(id));
      assert extra != [] ==> extra[..0] == [];
    }
  }

  /** One step of RunLedger. */
  lemma {:induction false} StepLedger(s: AppState, a: Action, i: nat)
    requires i < |s.players| && KeepsRoster(a)
    ensures i < |Reduce(s, a).players|
    ensures Reduce(s, a).players[i] == s.players[i].(balance := s.players[i].balance +
      (if a.AddPayment? then AmountFor(s.players[i].id)(a.payment) else 0))
    ensures Reduce(s, a).payments == s.payments + (if a.AddPayment? then [a.payment] else [])
  {
  }

  /** At most one attendance record per (session, player) pair. */
  predicate UniquePairs(att: seq<AttendanceRecord>)
  {
    Distinct(Pairs(att))
  }

  /** UPDATE_ATTENDANCE as an upsert: a present pair is overwritten in place
      (same length, same order, every other record kept); an absent pair is
      appended. */
  lemma {:induction false} UpsertShape(att: seq<AttendanceRecord>, rec: AttendanceRecord)
    ensures PairOf(rec) in Pairs(att) ==>
      && |Upsert(att, rec)| == |att|
      && forall i :: 0 <= i < |att| ==>
           Upsert(att, rec)[i] == (if PairOf(att[i]) == PairOf(rec) then rec else att[i])
    ensures PairOf(rec) !in Pairs(att) ==> Upsert(att, rec) == att + [rec]
  {
    var ps := Pairs(att);
    if PairOf(rec) in ps {
      var k :| 0 <= k < |ps| && ps[k] == PairOf(rec);
      assert SamePair(rec)(att[k]);
    } else {
      forall i | 0 <= i < |att| ensures !SamePair(rec)(att[i]) {
        assert ps[i] == PairOf(att[i]);
      }
    }
  }

  /** The upsert keeps the pairs unique, and afterwards the one record of the
      payload's pair is the payload; the list grows iff the pair was new. */
  lemma {:induction false} UpsertKeepsUnique(att: seq<AttendanceRecord>, rec: AttendanceRecord)
    requires UniquePairs(att)
    ensures UniquePairs(Upsert(att, rec))
    ensures rec in Upsert(att, rec)
    ensures forall x :: x in Upsert(att, rec) && PairOf(x) == PairOf(rec) ==> x == rec
    ensures |Upsert(att, rec)| == |att| + (if PairOf(rec) in Pairs(att) then 0 else 1)
  {
    UpsertShape(att, rec);
    var u := Upsert(att, rec);
    var ps, qs := Pairs(att), Pairs(u);
    if PairOf(rec) in ps {
      var k :| 0 <= k < |ps| && ps[k] == PairOf(rec);
      assert u[k] == rec;
      forall i, j | 0 <= i < j < |u| ensures qs[i] != qs[j] {
        assert ps[i] != ps[j];
      }
    } else {
      forall i, j | 0 <= i < j < |u| ensures qs[i] != qs[j] {
        if j == |att| {
          assert ps[i] == PairOf(att[i]);
        } else {
          assert ps[i] != ps[j];
        }
      }
      assert u[|att|] == rec;
    }
  }

  /** Under the invariant a record present in the list is the only one of
      its pair. */
  lemma {:induction false} UniquePairFilter(att: seq<AttendanceRecord>, rec: AttendanceRecord)
    requires UniquePairs(att) && rec in att
    ensures Filter(att, SamePair(rec)) == [rec]
  {
    var n := |att| - 1;
    var front := att[..n];
    assert Pairs(front) == Pairs(att)[..n];
    if att[n] == rec {
      forall i | 0 <= i < |front| ensures !SamePair(rec)(front[i]) {
        assert Pairs(att)[i] != Pairs(att)[n];
      }
      FilterKeepsNone(front, SamePair(rec));
    } else {
      assert rec in front by {
        assert att == front + [att[n]];
      }
      UniquePairFilter(front, rec);
      var k :| 0 <= k < n && front[k] == rec;
      assert Pairs(att)[k] != Pairs(att)[n];
    }
  }

  /** The seeded attendance already satisfies the invariant. */
  lemma {:induction false} SeedAttendanceUnique()
    ensures UniquePairs(MockAttendance)
  {
    assert Pairs(MockAttendance) == [("s1", "p1"), ("s1", "p2")];
  }

  /** Every run of actions keeps one attendance record per (session,
      player) pair when it starts from such a state: only
      UPDATE_ATTENDANCE writes the list, and its upsert keeps pairs unique. */
  lemma {:induction false} RunKeepsUniquePairs(s: AppState, actions: seq<Action>)
    requires UniquePairs(s.attendance)
    ensures UniquePairs(Run(s, actions).attendance)
  {
    if actions != [] {
      var n := |actions| - 1;
      var before, a := Run(s, actions[..n]), actions[n];
      RunKeepsUniquePairs(s, actions[..n]);
      if a.UpdateAttendance? {
        UpsertKeepsUnique(before.attendance, a.record);
      } else {
        ReduceFrame(before, a);
        assert Agree(before, Reduce(before, a), AttendanceField);
      }
    }
  }

  /** Hence every state the app reaches from its seed has unique pairs. */
  lemma {:induction false} ReachableUniquePairs(today: string, tomorrow: string, actions: seq<Action>)
    ensures UniquePairs(Run(InitialState(today, tomorrow), actions).attendance)
  {
    SeedAttendanceUnique();
    RunKeepsUniquePairs(InitialState(today, tomorrow), actions);
  }

  /** UPDATE_PLAYER replaces the players whose id matches and keeps length
      and order; with an id nobody has it changes nothing, so it never
      inserts. */
  lemma {:induction false} ReplacePlayerById(s: AppState, p: Player)
    ensures |Reduce(s, UpdatePlayer(p)).players| == |s.players|
    ensures forall i :: 0 <= i < |s.players| ==>
      Reduce(s, UpdatePlayer(p)).players[i] == (if s.players[i].id == p.id then p else s.players[i])
    ensures (forall i :: 0 <= i < |s.players| ==> s.players[i].id != p.id) ==> Reduce(s, UpdatePlayer(p)) == s
  {
  }

  /** UPDATE_INVENTORY likewise replaces the items whose id matches, and
      with an unknown id changes nothing. */
  lemma {:induction false} ReplaceItemById(s: AppState, item: InventoryItem)
    ensures |Reduce(s, UpdateInventory(item)).inventory| == |s.inventory|
    ensures forall i :: 0 <= i < |s.inventory| ==>
      Reduce(s, UpdateInventory(item)).inventory[i] ==
        (if s.inventory[i].id == item.id then item else s.inventory[i])
    ensures (forall i :: 0 <= i < |s.inventory| ==> s.inventory[i].id != item.id) ==>
      Reduce(s, UpdateInventory(item)) == s
  {
  }

  /** DELETE_PLAYER removes exactly the players with that id and keeps the
      rest in order; ledgers, attendance and results that mention the id are
      left alone. */
  lemma {:induction false} DeleteRemovesOnly(s: AppState, id: string)
    ensures forall p :: p in Reduce(s, DeletePlayer(id)).players <==> p in s.players && p.id != id
    ensures IsSubsequence(Reduce(s, DeletePlayer(id)).players, s.players)
    ensures |Reduce(s, DeletePlayer(id)).players| == |s.players| - |Filter(s.players, IdIs(id))|
    ensures Reduce(s, DeletePlayer(id)) == s.(players := Reduce(s, DeletePlayer(id)).players)
  {
    FilterIsSubsequence(s.players, IdIsNot(id));
    FilterComplement(s.players, IdIsNot(id), IdIs(id));
  }

  /** ADD_ANNOUNCEMENT puts the new item first; the other ADD_ actions put
      theirs last. */
  lemma {:induction false} InsertPositions(s: AppState, a: Action)
    ensures a.AddAnnouncement? ==>
      Reduce(s, a).announcements[0] == a.announcement && Reduce(s, a).announcements[1..] == s.announcements
    ensures a.AddPlayer? ==> Reduce(s, a).players == s.players + [a.player]
    ensures a.AddBatch? ==> Reduce(s, a).batches == s.batches + [a.batch]
    ensures a.AddLead? ==> Reduce(s, a).leads == s.leads + [a.lead]
    ensures a.AddSession? ==> Reduce(s, a).sessions == s.sessions + [a.session]
    ensures a.AddTournament? ==> Reduce(s, a).tournaments == s.tournaments + [a.tournament]
    ensures a.AddResult? ==> Reduce(s, a).tournamentResults == s.tournamentResults + [a.result]
  {
  }

  /** UPDATE_LEAD_STATUS rewrites only the status, and only of the leads with
      that id. */
  lemma {:induction false} LeadStatusOnly(s: AppState, id: string, st: LeadStatus)
    ensures |Reduce(s, UpdateLeadStatus(id, st)).leads| == |s.leads|
    ensures forall i :: 0 <= i < |s.leads| ==>
      && Reduce(s, UpdateLeadStatus(id, st)).leads[i].(status := s.leads[i].status) == s.leads[i]
      && Reduce(s, UpdateLeadStatus(id, st)).leads[i].status == (if s.leads[i].id == id then st else s.leads[i].status)
  {
  }

  // ---------------------------------------------------------------------
  // login

  function EmailIs(email: string): User -> bool
  {
    (u: User) => u.email == email
  }

  /** The user `login(email, role)` dispatches: the seeded user with that
      email, else a fresh 'new-user' named after the email's local part. */
  function LoginUser(email: string, role: Role): (u: User)
    ensures (exists k :: 0 <= k < |MockUsers| && MockUsers[k].email == email) ==>
      u in MockUsers && u.email == email
    ensures (forall k :: 0 <= k < |MockUsers| ==> MockUsers[k].email != email) ==>
      && u.id == "new-user"
      && u.role == role
      && u.email == email
      && u.name == BeforeFirst(email, '@')
      && u.avatarUrl == Some("https://ui-avatars.com/api/?name=" + email)
  {
    match Find(MockUsers, EmailIs(email))
    case Some(known) => known
    case None =>
      User("new-user", BeforeFirst(email, '@'), email, role,
        Some("https://ui-avatars.com/api/?name=" + email), None, None)
  }

  /** The role chosen on the login screen is ignored for a seeded email. */
  lemma {:induction false} LoginIgnoresRoleForKnownEmail(email: string, r1: Role, r2: Role)
    requires exists k :: 0 <= k < |MockUsers| && MockUsers[k].email == email
    ensures LoginUser(email, r1) == LoginUser(email, r2)
  {
  }

  /** The login screen's default address is not seeded: it logs in a new
      user called 'demo' with the chosen role. */
  lemma {:induction false} DemoLogin(role: Role)
    ensures LoginUser("demo@lolo.com", role).id == "new-user"
    ensures LoginUser("demo@lolo.com", role).name == "demo"
    ensures LoginUser("demo@lolo.com", role).role == role
  {
    assert forall k :: 0 <= k < |MockUsers| ==> MockUsers[k].email != "demo@lolo.com";
    assert "demo@lolo.com"[4] == '@';
    BeforeFirstAt("demo@lolo.com", '@', 4);
  }

  /** Signing in with a seeded email yields that seeded user, whatever the role. */
  lemma {:induction false} CoachLogin(role: Role)
    ensures LoginUser("coach@lolo.com", role) == MockUsers[0]
  {
    assert MockUsers[0].email == "coach@lolo.com";
  }

  // ---------------------------------------------------------------------
  // The state cell (useReducer).

  class Store {
    var state: AppState

    /** useReducer(appReducer, initialState) */
    constructor (today: string, tomorrow: string)
      ensures state == InitialState(today, tomorrow)
      ensures state.currentUser.None?
    {
      state := InitialState(today, tomorrow);
    }

    /** dispatch */
    method Dispatch(a: Action)
      modifies this
      ensures state == Reduce(old(state), a)
    {
      state := Reduce(state, a);
    }

    /** login(email, role) */
    method SignIn(email: string, role: Role)
      modifies this
      ensures state == old(state).(currentUser := Some(LoginUser(email, role)))
    {
      Dispatch(Login(LoginUser(email, role)));
    }

    /** The layout's sign-out button dispatches LOGOUT. */
    method SignOut()
      modifies this
      ensures state == old(state).(currentUser := None)
    {
      Dispatch(Logout);
    }
  }
}
