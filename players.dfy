/** The Players page (pages/Players.tsx): the search box, the registration
    form and the record it builds, and the batch picker that sets the fee. */
module PlayersPage {
  import opened Common
  import opened Text
  import opened Types
  import opened AppStore

  /** `s.toLowerCase().includes(term.toLowerCase())` */
  predicate MatchesText(s: string, term: string)
  {
    Contains(Lower(s), Lower(term))
  }

  /** The search predicate; an absent or empty guardian name never matches. */
  predicate Matches(p: Player, term: string)
  {
    || MatchesText(p.name, term)
    || MatchesText(p.contactEmail, term)
    || MatchesText(p.studentId, term)
    || (p.guardianName.Some? && p.guardianName.value != "" && MatchesText(p.guardianName.value, term))
  }

  function MatchesTerm(term: string): Player -> bool
  {
    (p: Player) => Matches(p, term)
  }

  /** `filteredPlayers`. */
  function FilteredPlayers(players: seq<Player>, term: string): seq<Player>
  {
    Filter(players, MatchesTerm(term))
  }

  /** The list shows exactly the matching players, in roster order. */
  lemma {:induction false} FilteredPlayersExact(players: seq<Player>, term: string)
    ensures forall p :: p in FilteredPlayers(players, term) <==> p in players && Matches(p, term)
    ensures IsSubsequence(FilteredPlayers(players, term), players)
  {
    FilterIsSubsequence(players, MatchesTerm(term));
  }

  /** An empty search box lists everybody. */
  lemma {:induction false} EmptySearchListsAll(players: seq<Player>)
    ensures FilteredPlayers(players, "") == players
  {
    forall i | 0 <= i < |players| ensures MatchesTerm("")(players[i]) {
      ContainsEmpty(Lower(players[i].name));
    }
    FilterKeepsAll(players, MatchesTerm(""));
  }

  /** The search ignores the case of ASCII letters in the term. */
  lemma {:induction false} SearchIgnoresCase(players: seq<Player>, term: string)
    ensures FilteredPlayers(players, Lower(term)) == FilteredPlayers(players, term)
  {
    LowerIdempotent(term);
    FilterExt(players, MatchesTerm(Lower(term)), MatchesTerm(term));
  }

  /** The registration form (`Partial<Player>`): a missing entry is `None`;
      `feeAmount` is `None` for an unparsable number. */
  datatype PlayerForm = PlayerForm(
    name: Option<string>,
    dob: Option<string>,
    contactEmail: Option<string>,
    contactPhone: Option<string>,
    guardianName: Option<string>,
    guardianPhone: Option<string>,
    feeAmount: Option<int>,
    status: PlayerStatus,
    batchId: Option<string>)

  /** The student number: 'STU-' and `Math.floor(10000 + random * 90000)`,
      with the random draw as `draw`. */
  function StudentId(draw: nat): (id: string)
    requires draw < 90000
    ensures |id| == 9 && id[..4] == "STU-"
    ensures AllDigits(id[4..]) && ParseDigits(id[4..]) == 10000 + draw
    ensures 10000 <= ParseDigits(id[4..]) <= 99999
  {
    var digits := NatToString(10000 + draw);
    NatToStringLength(10000 + draw, 5);
    NatToStringRoundTrip(10000 + draw);
    assert ("STU-" + digits)[4..] == digits;
    "STU-" + digits
  }

  /** The player `handleAddPlayer` registers. */
  function NewPlayer(f: PlayerForm, now: nat, draw: nat, today: string): (p: Player)
    requires draw < 90000
    ensures p.id == "p" + NatToString(now)
    ensures p.balance == 0 && p.joinedDate == today
    ensures p.name == OrElse(f.name, "Unknown") && p.dob == OrElse(f.dob, "2010-01-01")
    ensures p.contactEmail == OrElse(f.contactEmail, "") && p.contactPhone == OrElse(f.contactPhone, "")
    ensures p.guardianName == f.guardianName && p.guardianPhone == f.guardianPhone
    ensures p.feeAmount == f.feeAmount.GetOr(0)
    ensures p.photoUrl == "https://ui-avatars.com/api/?name=" + Spelled(f.name) + "&background=random"
    ensures p.status == f.status && p.batchId == f.batchId
    ensures p.studentId == StudentId(draw)
    ensures |p.studentId| == 9 && p.studentId[..4] == "STU-"
  {
    Player(
      "p" + NatToString(now),
      StudentId(draw),
      OrElse(f.name, "Unknown"),
      OrElse(f.dob, "2010-01-01"),
      OrElse(f.contactEmail, ""),
      OrElse(f.contactPhone, ""),
      f.guardianName,
      f.guardianPhone,
      "https://ui-avatars.com/api/?name=" + Spelled(f.name) + "&background=random",
      f.feeAmount.GetOr(0),
      0,
      today,
      f.status,
      f.batchId)
  }

  /** A fresh registration is appended with a zero balance, so it owes
      nothing and is not in the pending-fees count. */
  lemma {:induction false} RegisteredPlayerOwesNothing(s: AppState, f: PlayerForm, now: nat, draw: nat, today: string)
    requires draw < 90000
    ensures var t := Reduce(s, AddPlayer(NewPlayer(f, now, draw, today)));
      |t.players| == |s.players| + 1 && t.players[|s.players|].balance == 0
  {
  }

  function BatchIdIs(id: string): Batch -> bool
  {
    (b: Batch) => b.id == id
  }

  /** `batch?.monthlyFee || 0` for the batch picked in the form. */
  function FeeForBatch(batches: seq<Batch>, id: string): (fee: int)
    ensures (forall i :: 0 <= i < |batches| ==> batches[i].id != id) ==> fee == 0
    ensures forall i :: FirstMatch(batches, BatchIdIs(id), i) ==> fee == batches[i].monthlyFee
  {
    match Find(batches, BatchIdIs(id))
    case None => 0
    case Some(b) =>
      assert forall i, j :: FirstMatch(batches, BatchIdIs(id), i) && FirstMatch(batches, BatchIdIs(id), j) ==> i == j;
      b.monthlyFee
  }

  /** `state.batches[0]?.id || ''`. */
  function FirstBatchId(batches: seq<Batch>): string
  {
    if |batches| > 0 then batches[0].id else ""
  }

  /** The card's balance: `MVR <balance>` with its sign, red iff negative. */
  function BalanceBadge(balance: int): (badge: (string, bool))
    ensures badge.1 <==> balance < 0
    ensures badge.0 == "MVR " + IntToString(balance)
  {
    ("MVR " + IntToString(balance), balance < 0)
  }

  /** The page's search box and registration form. */
  class PlayersPage {
    var searchTerm: string
    var showAddModal: bool
    var form: PlayerForm

    constructor (batches: seq<Batch>)
      ensures searchTerm == "" && !showAddModal
      ensures form == PlayerForm(Some(""), Some(""), Some(""), Some(""), Some(""), Some(""), Some(300), Active,
        Some(FirstBatchId(batches)))
    {
      searchTerm, showAddModal := "", false;
      form := PlayerForm(Some(""), Some(""), Some(""), Some(""), Some(""), Some(""), Some(300), Active,
        Some(FirstBatchId(batches)));
    }

    /** Picking a batch in the form copies its fee, or 0 for no batch. */
    method SelectBatch(batches: seq<Batch>, id: string)
      modifies this
      ensures form == old(form).(batchId := Some(id), feeAmount := Some(FeeForBatch(batches, id)))
      ensures searchTerm == old(searchTerm) && showAddModal == old(showAddModal)
    {
      form := form.(batchId := Some(id), feeAmount := Some(FeeForBatch(batches, id)));
    }

    /** Submitting the form: dispatch the new player, close, and reset the
        form to fee 300 and ACTIVE with everything else missing. */
    method Register(store: Store, now: nat, draw: nat, today: string)
      requires draw < 90000
      modifies this, store
      ensures store.state == Reduce(old(store.state), Action.AddPlayer(NewPlayer(old(form), now, draw, today)))
      ensures !showAddModal && searchTerm == old(searchTerm)
      ensures form == PlayerForm(None, None, None, None, None, None, Some(300), Active, None)
    {
      store.Dispatch(Action.AddPlayer(NewPlayer(form, now, draw, today)));
      showAddModal := false;
      form := PlayerForm(None, None, None, None, None, None, Some(300), Active, None);
    }
  }
}
