/** The Batches page (pages/Batches.tsx): the "Create Batch" form and the
    batch cards with their active-student count and coach label. */
module BatchesPage {
  import opened Common
  import opened Text
  import opened Types
  import opened AppStore

  /** The form's `Partial<Batch>`; the fee is `Number` of the input. */
  datatype BatchForm = BatchForm(
    name: string,
    sport: SportType,
    scheduleDescription: string,
    monthlyFee: int)

  const BlankForm := BatchForm("", Badminton, "", 300)

  /** The batch `handleAddBatch` dispatches. */
  function NewBatch(f: BatchForm, currentUser: Option<User>, now: nat): (b: Batch)
    ensures b.id == "b" + NatToString(now)
    ensures b.name == f.name && b.sport == f.sport
    ensures b.scheduleDescription == f.scheduleDescription && b.monthlyFee == f.monthlyFee
    ensures b.coachId == UserIdOr(currentUser, "u1")
    ensures currentUser.None? ==> b.coachId == "u1"
  {
    Batch("b" + NatToString(now), f.name, f.sport, UserIdOr(currentUser, "u1"), f.scheduleDescription, f.monthlyFee)
  }

  /** `p => p.batchId === id && p.status === 'ACTIVE'`. */
  function ActiveIn(id: string): Player -> bool
  {
    (p: Player) => p.batchId == Some(id) && p.status == Active
  }

  /** The players counted on a batch's card. */
  function ActiveStudents(players: seq<Player>, id: string): (r: seq<Player>)
    ensures forall p :: p in r <==> p in players && p.batchId == Some(id) && p.status == Active
    ensures IsSubsequence(r, players)
  {
    FilterIsSubsequence(players, ActiveIn(id));
    Filter(players, ActiveIn(id))
  }

  /** `studentCount`: the number of players `ActiveStudents` lists. */
  function StudentCount(players: seq<Player>, id: string): nat
  {
    |Filter(players, ActiveIn(id))|
  }

  /** Only active members count: enrolling an inactive player or a player of
      another batch leaves the count as it was, an active member adds one. */
  lemma {:induction false} StudentCountStep(players: seq<Player>, id: string, p: Player)
    ensures StudentCount(players + [p], id) ==
      StudentCount(players, id) + (if p.batchId == Some(id) && p.status == Active then 1 else 0)
  {
    assert (players + [p])[..|players|] == players;
  }

  /** `p => p.batchId` */
  function PlayerBatch(p: Player): Option<string>
  {
    p.batchId
  }

  /** The batch ids as the optional references players carry. */
  function BatchKeys(batches: seq<Batch>): (ks: seq<Option<string>>)
    ensures |ks| == |batches|
    ensures forall i :: 0 <= i < |batches| ==> ks[i] == Some(batches[i].id)
  {
    seq(|batches|, i requires 0 <= i < |batches| => Some(batches[i].id))
  }

  /** The batch ids are pairwise distinct. */
  predicate DistinctIds(batches: seq<Batch>)
  {
    forall i, j :: 0 <= i < j < |batches| ==> batches[i].id != batches[j].id
  }

  /** The counts shown on the cards, added up. */
  function CardTotal(players: seq<Player>, batches: seq<Batch>): nat
  {
    if batches == [] then 0
    else CardTotal(players, batches[..|batches| - 1]) + StudentCount(players, batches[|batches| - 1].id)
  }

  /** A card's count is the size of the batch's group among active players. */
  lemma {:induction false} CountIsGroupSize(players: seq<Player>, id: string)
    ensures StudentCount(players, id) == GroupSize(Filter(players, StatusIs(Active)), PlayerBatch, Some(id))
  {
    forall p ensures ActiveIn(id)(p) <==> StatusIs(Active)(p) && KeyIs(PlayerBatch, Some(id))(p) {
      assert KeyIs(PlayerBatch, Some(id))(p) <==> PlayerBatch(p) == Some(id);
    }
    FilterCompose(players, StatusIs(Active), KeyIs(PlayerBatch, Some(id)), ActiveIn(id));
  }

  lemma {:induction false} CardTotalIsGroupSizes(players: seq<Player>, batches: seq<Batch>)
    ensures CardTotal(players, batches) == GroupSizes(Filter(players, StatusIs(Active)), PlayerBatch, BatchKeys(batches))
  {
    if batches != [] {
      var n := |batches| - 1;
      CardTotalIsGroupSizes(players, batches[..n]);
      CountIsGroupSize(players, batches[n].id);
      assert BatchKeys(batches)[..n] == BatchKeys(batches[..n]);
    }
  }

  /** A player carries one optional batch id, so with distinct batch ids no
      active player is counted on two cards: the card counts add up to at
      most the number of active players. */
  lemma {:induction false} CardTotalAtMostActive(players: seq<Player>, batches: seq<Batch>)
    requires DistinctIds(batches)
    ensures CardTotal(players, batches) <= |Filter(players, StatusIs(Active))|
  {
    var actives := Filter(players, StatusIs(Active));
    CardTotalIsGroupSizes(players, batches);
    assert Distinct(BatchKeys(batches));
    GroupSizesCount(actives, PlayerBatch, BatchKeys(batches));
  }

  /** 1 when `p` is counted on the card of batch `id`. */
  function Counted(p: Player, id: string): nat
  {
    if p.batchId == Some(id) && p.status == Active then 1 else 0
  }

  lemma {:induction false} CountPrefix(ps: seq<Player>, id: string, k: nat)
    requires k < |ps|
    ensures StudentCount(ps[..k + 1], id) == StudentCount(ps[..k], id) + Counted(ps[k], id)
  {
    assert ps[..k + 1] == ps[..k] + [ps[k]];
    StudentCountStep(ps[..k], id, ps[k]);
  }

  lemma {:induction false} CountOfFour(ps: seq<Player>, id: string)
    requires |ps| == 4
    ensures StudentCount(ps, id) == Counted(ps[0], id) + Counted(ps[1], id) + Counted(ps[2], id) + Counted(ps[3], id)
  {
    CountPrefix(ps, id, 0);
    CountPrefix(ps, id, 1);
    CountPrefix(ps, id, 2);
    CountPrefix(ps, id, 3);
    assert ps[..4] == ps;
    assert ps[..0] == [];
  }

  /** On the seed data the cards read 2, 1 and 0: Diana is inactive. */
  lemma {:induction false} SeedStudentCounts()
    ensures StudentCount(MockPlayers, "b1") == 2
    ensures StudentCount(MockPlayers, "b2") == 1
    ensures StudentCount(MockPlayers, "b3") == 0
  {
    CountOfFour(MockPlayers, "b1");
    CountOfFour(MockPlayers, "b2");
    CountOfFour(MockPlayers, "b3");
  }

  /** `coachName`: 'You' exactly when someone is logged in and coaches the
      batch, 'Coach' otherwise. */
  function CoachLabel(currentUser: Option<User>, b: Batch): (shown: string)
    ensures shown == "You" <==> currentUser.Some? && currentUser.value.id == b.coachId
    ensures shown == "You" || shown == "Coach"
  {
    if currentUser.Some? && currentUser.value.id == b.coachId then "You" else "Coach"
  }

  /** A batch created while logged in reads 'You' on its card. */
  lemma {:induction false} CreatorSeesYou(u: User, f: BatchForm, now: nat)
    requires u.id != ""
    ensures CoachLabel(Some(u), NewBatch(f, Some(u), now)) == "You"
  {
  }

  /** The page's modal and form. */
  class BatchesPage {
    var showAddModal: bool
    var form: BatchForm

    constructor ()
      ensures !showAddModal && form == BlankForm
    {
      showAddModal := false;
      form := BlankForm;
    }

    /** Submitting the form: dispatch ADD_BATCH, close the modal, and reset
        the form to Badminton at 300. */
    method CreateBatch(store: Store, now: nat)
      modifies this, store
      ensures store.state == Reduce(old(store.state), AddBatch(NewBatch(old(form), old(store.state.currentUser), now)))
      ensures !showAddModal && form == BlankForm
    {
      store.Dispatch(AddBatch(NewBatch(form, store.state.currentUser, now)));
      showAddModal := false;
      form := BlankForm;
    }
  }
}
