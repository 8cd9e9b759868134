/** The Leads page (pages/Leads.tsx): the enquiry form, the status buttons
    on each card, and the three status columns. */
module LeadsPage {
  import opened Common
  import opened Text
  import opened Types
  import opened AppStore

  /** The enquiry form. `notes` is optional because the form is a partial
      lead; the page itself always holds "" there when it opens or resets. */
  datatype LeadForm = LeadForm(name: string, contact: string, sport: SportType, notes: Option<string>)

  /** The lead `handleAddLead` records. */
  function NewLead(f: LeadForm, now: nat, today: string): (l: Lead)
    ensures l.id == "l" + NatToString(now) && l.date == today
    ensures l.status == New
    ensures l.name == f.name && l.contact == f.contact && l.sportOfInterest == f.sport
    ensures l.notes == OrElse(f.notes, "")
  {
    Lead("l" + NatToString(now), f.name, f.contact, f.sport, OrElse(f.notes, ""), today, New)
  }

  /** The statuses a card's buttons can move its lead to: "Mark Contacted"
      on a NEW lead, "Enroll" on any lead not yet CONVERTED. */
  function Offered(l: Lead): set<LeadStatus>
  {
    (if l.status == New then {Contacted} else {}) + (if l.status != Converted then {Converted} else {})
  }

  /** A converted lead offers no button, every button changes the status,
      and "Enroll" is offered exactly when the lead is not converted. */
  lemma {:induction false} ConvertedIsFinal(l: Lead)
    ensures Offered(l) == {} <==> l.status == Converted
    ensures l.status !in Offered(l)
    ensures Converted in Offered(l) <==> l.status != Converted
    ensures Contacted in Offered(l) <==> l.status == New
  {
  }

  /** Pressing a card's buttons only ever moves leads along the offered
      transitions: a lead that is CONVERTED stays CONVERTED whichever
      offered button of whichever card is pressed. */
  lemma {:induction false} ButtonsKeepConverted(s: AppState, pressed: Lead, target: LeadStatus, i: nat)
    requires target in Offered(pressed)
    requires i < |s.leads| && s.leads[i].status == Converted
    requires forall j :: 0 <= j < |s.leads| && s.leads[j].id == pressed.id ==> s.leads[j] == pressed
    ensures Reduce(s, UpdateLeadStatus(pressed.id, target)).leads[i].status == Converted
  {
    LeadStatusOnly(s, pressed.id, target);
  }

  function StatusIsLead(st: LeadStatus): Lead -> bool
  {
    (l: Lead) => l.status == st
  }

  /** `leadsByStatus`: one column per status; DROPPED has none. */
  function Column(leads: seq<Lead>, st: LeadStatus): seq<Lead>
  {
    Filter(leads, StatusIsLead(st))
  }

  /** The four status groups split the leads: their sizes add up to the
      number of leads. */
  lemma {:induction false} StatusGroupsPartition(leads: seq<Lead>)
    ensures |Column(leads, New)| + |Column(leads, Contacted)| + |Column(leads, Converted)|
      + |Column(leads, Dropped)| == |leads|
  {
    if leads != [] {
      StatusGroupsPartition(leads[..|leads| - 1]);
    }
  }

  /** The columns are disjoint order-preserving selections, a DROPPED lead
      is in none of them, and the headers' counts add up to the number of
      leads that are not dropped. */
  lemma {:induction false} ColumnsMeaning(leads: seq<Lead>)
    ensures forall st, l :: l in Column(leads, st) <==> l in leads && l.status == st
    ensures forall st :: IsSubsequence(Column(leads, st), leads)
    ensures |Column(leads, New)| + |Column(leads, Contacted)| + |Column(leads, Converted)|
      == |leads| - |Column(leads, Dropped)|
  {
    forall st ensures IsSubsequence(Column(leads, st), leads) {
      FilterIsSubsequence(leads, StatusIsLead(st));
    }
    StatusGroupsPartition(leads);
  }

  /** The page's enquiry form. */
  class LeadsPage {
    var showAddModal: bool
    var form: LeadForm

    constructor ()
      ensures !showAddModal && form == LeadForm("", "", Badminton, Some(""))
    {
      showAddModal := false;
      form := LeadForm("", "", Badminton, Some(""));
    }

    /** Saving an enquiry: dispatch it, close, reset the form. */
    method AddLead(store: Store, now: nat, today: string)
      modifies this, store
      ensures store.state == Reduce(old(store.state), Action.AddLead(NewLead(old(form), now, today)))
      ensures !showAddModal && form == LeadForm("", "", Badminton, Some(""))
    {
      store.Dispatch(Action.AddLead(NewLead(form, now, today)));
      showAddModal := false;
      form := LeadForm("", "", Badminton, Some(""));
    }

    /** `updateStatus`, used by "Mark Contacted". */
    method UpdateStatus(store: Store, id: string, status: LeadStatus)
      modifies store
      ensures store.state == Reduce(old(store.state), UpdateLeadStatus(id, status))
    {
      store.Dispatch(UpdateLeadStatus(id, status));
    }

    /** `convertToStudent`: mark the lead CONVERTED; no student is created. */
    method ConvertToStudent(store: Store, lead: Lead)
      modifies store
      ensures store.state == Reduce(old(store.state), UpdateLeadStatus(lead.id, Converted))
      ensures store.state.players == old(store.state.players)
    {
      UpdateStatus(store, lead.id, Converted);
    }
  }
}
