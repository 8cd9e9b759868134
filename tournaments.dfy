/** The Tournaments page (pages/Tournaments.tsx): the "Add Tournament" and
    "Add Result" forms, each tournament's list of results and the colour of
    an achievement badge. */
module TournamentsPage {
  import opened Common
  import opened Text
  import opened Types
  import opened AppStore

  datatype TournamentForm = TournamentForm(name: string, date: string, location: string)

  const BlankTournament := TournamentForm("", "", "")

  /** The result form; "Select Player" is the empty player id. */
  datatype ResultForm = ResultForm(playerId: string, category: string, achievement: Achievement)

  const BlankResult := ResultForm("", "U13 Singles", Participant)

  /** The tournament `handleAddTournament` dispatches. */
  function NewTournament(f: TournamentForm, now: nat): (t: Tournament)
    ensures t.id == "t" + NatToString(now)
    ensures t.name == f.name && t.date == f.date && t.location == f.location
  {
    Tournament("t" + NatToString(now), f.name, f.date, f.location)
  }

  /** A new tournament is listed last, after the ones already there. */
  lemma {:induction false} NewTournamentListedLast(s: AppState, f: TournamentForm, now: nat)
    ensures Reduce(s, AddTournament(NewTournament(f, now))).tournaments == s.tournaments + [NewTournament(f, now)]
    ensures Reduce(s, AddTournament(NewTournament(f, now))).tournamentResults == s.tournamentResults
  {
  }

  /** `!showResultModal`: no tournament chosen, or the empty id. */
  predicate NoneChosen(selected: Option<string>)
  {
    selected.None? || selected.value == ""
  }

  /** The result `handleAddResult` dispatches for the chosen tournament. */
  function NewResult(f: ResultForm, tournamentId: string, now: nat): (r: TournamentResult)
    ensures r.id == "r" + NatToString(now)
    ensures r.tournamentId == tournamentId
    ensures r.playerId == f.playerId && r.category == f.category && r.achievement == f.achievement
  {
    TournamentResult("r" + NatToString(now), tournamentId, f.playerId, f.category, f.achievement)
  }

  function OfTournament(tournamentId: string): TournamentResult -> bool
  {
    (r: TournamentResult) => r.tournamentId == tournamentId
  }

  /** `state.tournamentResults.filter(r => r.tournamentId === t.id)`. */
  function ResultsFor(results: seq<TournamentResult>, tournamentId: string): (rs: seq<TournamentResult>)
    ensures forall r :: r in rs <==> r in results && r.tournamentId == tournamentId
    ensures IsSubsequence(rs, results)
  {
    FilterIsSubsequence(results, OfTournament(tournamentId));
    Filter(results, OfTournament(tournamentId))
  }

  /** A result added for a tournament is shown last on that tournament's
      card and on no other card. */
  lemma {:induction false} AddedResultShownOnce(s: AppState, f: ResultForm, tid: string, now: nat, other: string)
    requires other != tid
    ensures var t := Reduce(s, AddResult(NewResult(f, tid, now)));
      && ResultsFor(t.tournamentResults, tid) == ResultsFor(s.tournamentResults, tid) + [NewResult(f, tid, now)]
      && ResultsFor(t.tournamentResults, other) == ResultsFor(s.tournamentResults, other)
  {
    var r := NewResult(f, tid, now);
    assert (s.tournamentResults + [r])[..|s.tournamentResults|] == s.tournamentResults;
  }

  /** On the seed data the City Junior Open shows both results and the
      Winter Cup none. */
  lemma {:induction false} SeedResults()
    ensures ResultsFor(MockResults, "t1") == MockResults
    ensures ResultsFor(MockResults, "t2") == []
  {
    FilterKeepsAll(MockResults, OfTournament("t1"));
    FilterKeepsNone(MockResults, OfTournament("t2"));
  }

  datatype Colour = Yellow | Blue | Gray

  /** The badge colour: gray, then yellow for a Winner, then blue for a
      Semi-Finalist; Runner-up and Participant stay gray. */
  method BadgeColour(a: Achievement) returns (color: Colour)
    ensures color == Yellow <==> a == Winner
    ensures color == Blue <==> a == SemiFinalist
    ensures color == Gray <==> a == RunnerUp || a == Participant
  {
    color := Gray;
    if a == Winner {
      color := Yellow;
    }
    if a == SemiFinalist {
      color := Blue;
    }
  }

  /** The page's modals and forms; `selected` is the tournament whose
      "Add Result" modal is open. */
  class TournamentsPage {
    var showAddModal: bool
    var selected: Option<string>
    var tournamentForm: TournamentForm
    var resultForm: ResultForm

    constructor ()
      ensures !showAddModal && selected.None?
      ensures tournamentForm == BlankTournament && resultForm == BlankResult
    {
      showAddModal, selected := false, None;
      tournamentForm, resultForm := BlankTournament, BlankResult;
    }

    /** "+ Add Result" on a tournament's card. */
    method OpenResult(tournamentId: string)
      modifies this
      ensures selected == Some(tournamentId)
      ensures showAddModal == old(showAddModal)
      ensures tournamentForm == old(tournamentForm) && resultForm == old(resultForm)
    {
      selected := Some(tournamentId);
    }

    /** Submitting the tournament form: dispatch and close; the form keeps
        its values. */
    method AddTournament(store: Store, now: nat)
      modifies this, store
      ensures store.state == Reduce(old(store.state), Action.AddTournament(NewTournament(old(tournamentForm), now)))
      ensures !showAddModal && selected == old(selected)
      ensures tournamentForm == old(tournamentForm) && resultForm == old(resultForm)
    {
      store.Dispatch(Action.AddTournament(NewTournament(tournamentForm, now)));
      showAddModal := false;
    }

    /** Submitting the result form: nothing happens while no tournament is
        chosen; otherwise the result for the chosen one is dispatched and
        the modal closes. */
    method AddResult(store: Store, now: nat)
      modifies this, store
      ensures NoneChosen(old(selected)) ==> store.state == old(store.state) && selected == old(selected)
      ensures !NoneChosen(old(selected)) ==>
        && store.state == Reduce(old(store.state), Action.AddResult(NewResult(old(resultForm), old(selected).value, now)))
        && selected.None?
      ensures showAddModal == old(showAddModal)
      ensures tournamentForm == old(tournamentForm) && resultForm == old(resultForm)
    {
      if NoneChosen(selected) {
        return;
      }
      store.Dispatch(Action.AddResult(NewResult(resultForm, selected.value, now)));
      selected := None;
    }
  }
}
