/** The application's records and enumerations (types.ts). Optional
    properties (`x?: T`) are `Option<T>`; string-literal unions are
    datatypes without payload; numbers are integers. */
module Types {
  import opened Common

  datatype Role = Admin | Coach | Parent

  datatype User = User(
    id: string,
    name: string,
    email: string,
    role: Role,
    avatarUrl: Option<string>,
    phone: Option<string>,
    hourlyRate: Option<int>)

  /** 'Badminton' | 'Volleyball' | 'Other' */
  datatype SportType = Badminton | Volleyball | OtherSport

  datatype Batch = Batch(
    id: string,
    name: string,
    sport: SportType,
    coachId: string,
    scheduleDescription: string,
    monthlyFee: int)

  datatype PlayerStatus = Active | Inactive

  datatype Player = Player(
    id: string,
    studentId: string,
    name: string,
    dob: string,
    contactEmail: string,
    contactPhone: string,
    guardianName: Option<string>,
    guardianPhone: Option<string>,
    photoUrl: string,
    feeAmount: int,
    balance: int,
    joinedDate: string,
    status: PlayerStatus,
    batchId: Option<string>)

  /** `p => p.status === st` */
  function StatusIs(st: PlayerStatus): Player -> bool
  {
    (p: Player) => p.status == st
  }

  datatype LeadStatus = New | Contacted | Converted | Dropped

  datatype Lead = Lead(
    id: string,
    name: string,
    contact: string,
    sportOfInterest: SportType,
    notes: string,
    date: string,
    status: LeadStatus)

  datatype Session = Session(
    id: string,
    date: string,
    time: string,
    durationMinutes: int,
    coachId: string,
    court: string,
    capacity: int,
    registeredPlayerIds: seq<string>,
    batchId: Option<string>)

  datatype AttendanceStatus = Present | Absent | Excused | Late

  datatype AttendanceRecord = AttendanceRecord(
    id: string,
    sessionId: string,
    playerId: string,
    status: AttendanceStatus,
    notes: Option<string>)

  datatype PaymentMethod = Cash | Transfer | Card

  /** `method` is a keyword in Dafny, so that field is `payMethod`. */
  datatype Payment = Payment(
    id: string,
    playerId: string,
    date: string,
    amount: int,
    payMethod: PaymentMethod,
    reference: Option<string>)

  /** 'ALL' | 'COACHES' | 'PARENTS' | 'BATCH' */
  datatype Audience = Everyone | Coaches | Parents | BatchMembers

  datatype Announcement = Announcement(
    id: string,
    title: string,
    message: string,
    date: string,
    targetAudience: Audience,
    authorId: string)

  datatype Tournament = Tournament(
    id: string,
    name: string,
    date: string,
    location: string)

  /** 'Winner' | 'Runner-up' | 'Semi-Finalist' | 'Participant' */
  datatype Achievement = Winner | RunnerUp | SemiFinalist | Participant

  datatype TournamentResult = TournamentResult(
    id: string,
    tournamentId: string,
    playerId: string,
    category: string,
    achievement: Achievement)

  datatype ItemCategory = Equipment | Consumable | Apparel

  datatype InventoryItem = InventoryItem(
    id: string,
    name: string,
    category: ItemCategory,
    quantity: int,
    minThreshold: int,
    lastUpdated: string)

  datatype Settings = Settings(
    academyName: string,
    address: string,
    contactPhone: string,
    defaultMonthlyFee: int,
    paymentReminderDay: int,
    appVersion: string,
    logoUrl: Option<string>)

  /** The whole snapshot; `currentUser` is `None` when nobody is logged in. */
  datatype AppState = AppState(
    currentUser: Option<User>,
    users: seq<User>,
    players: seq<Player>,
    sessions: seq<Session>,
    attendance: seq<AttendanceRecord>,
    payments: seq<Payment>,
    announcements: seq<Announcement>,
    batches: seq<Batch>,
    leads: seq<Lead>,
    tournaments: seq<Tournament>,
    tournamentResults: seq<TournamentResult>,
    inventory: seq<InventoryItem>,
    settings: Settings)

  /** `x || fallback` for an optional string. */
  function OrElse(x: Option<string>, fallback: string): (r: string)
    ensures x.Some? && x.value != "" ==> r == x.value
    ensures x.None? || x.value == "" ==> r == fallback
  {
    if x.Some? && x.value != "" then x.value else fallback
  }

  /** `x || fallback` for a parsed number: NaN (`None`) and 0 fall back. */
  function NumberOr(x: Option<int>, fallback: int): (r: int)
    ensures x.Some? && x.value != 0 ==> r == x.value
    ensures x.None? || x.value == 0 ==> r == fallback
  {
    if x.Some? && x.value != 0 then x.value else fallback
  }

  /** How a template literal spells an optional string. */
  function Spelled(x: Option<string>): string
  {
    if x.Some? then x.value else "undefined"
  }

  /** `user.id`, or the empty string standing for the missing `?.id`. */
  function UserIdOr(u: Option<User>, fallback: string): (id: string)
    ensures u.Some? && u.value.id != "" ==> id == u.value.id
    ensures u.None? || u.value.id == "" ==> id == fallback
  {
    if u.Some? && u.value.id != "" then u.value.id else fallback
  }
}
