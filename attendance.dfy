/** The Attendance page (pages/Attendance.tsx): the selected session, the
    status shown for each player, and the marks it dispatches. */
module AttendancePage {
  import opened Common
  import opened Types
  import opened AppStore

  function SessionIdIs(id: string): Session -> bool
  {
    (x: Session) => x.id == id
  }

  /** `session`: the first session with the selected id, if any. */
  function SelectedSession(sessions: seq<Session>, id: string): Option<Session>
  {
    Find(sessions, SessionIdIs(id))
  }

  function PairIs(sessionId: string, playerId: string): AttendanceRecord -> bool
  {
    (a: AttendanceRecord) => a.sessionId == sessionId && a.playerId == playerId
  }

  /** `getStatus`: the status of the first record for the pair. */
  function GetStatus(att: seq<AttendanceRecord>, sessionId: string, playerId: string): (st: Option<AttendanceStatus>)
    ensures st.None? <==> forall i :: 0 <= i < |att| ==> !(att[i].sessionId == sessionId && att[i].playerId == playerId)
    ensures st.Some? ==> exists i :: FirstMatch(att, PairIs(sessionId, playerId), i) && att[i].status == st.value
  {
    match Find(att, PairIs(sessionId, playerId))
    case None => None
    case Some(a) => Some(a.status)
  }

  /** The record `handleAttendance` dispatches: a derived id and empty notes. */
  function MarkRecord(sessionId: string, playerId: string, status: AttendanceStatus): (r: AttendanceRecord)
    ensures r.id == "att_" + sessionId + "_" + playerId
    ensures r.sessionId == sessionId && r.playerId == playerId && r.status == status
    ensures r.notes == Some("")
  {
    AttendanceRecord("att_" + sessionId + "_" + playerId, sessionId, playerId, status, Some(""))
  }

  /** After a mark, the page shows the new status for that player. */
  lemma {:induction false} MarkThenGet(s: AppState, sessionId: string, playerId: string, status: AttendanceStatus)
    ensures GetStatus(Reduce(s, UpdateAttendance(MarkRecord(sessionId, playerId, status))).attendance,
      sessionId, playerId) == Some(status)
  {
    var rec := MarkRecord(sessionId, playerId, status);
    var u := Upsert(s.attendance, rec);
    UpsertShape(s.attendance, rec);
    assert rec in u;
    assert forall i :: 0 <= i < |u| && PairIs(sessionId, playerId)(u[i]) ==> u[i] == rec;
  }

  /** However often a player is marked, the session keeps one record for
      that player, the last mark. */
  lemma {:induction false} RepeatedMarks(att: seq<AttendanceRecord>, sessionId: string, playerId: string,
                      first: AttendanceStatus, second: AttendanceStatus)
    requires UniquePairs(att)
    ensures var rec := MarkRecord(sessionId, playerId, second);
      var after := Upsert(Upsert(att, MarkRecord(sessionId, playerId, first)), rec);
      UniquePairs(after) && Filter(after, SamePair(rec)) == [rec]
  {
    var mid := Upsert(att, MarkRecord(sessionId, playerId, first));
    var rec := MarkRecord(sessionId, playerId, second);
    UpsertKeepsUnique(att, MarkRecord(sessionId, playerId, first));
    UpsertKeepsUnique(mid, rec);
    UniquePairFilter(Upsert(mid, rec), rec);
  }

  /** Re-marking replaces the whole record: the seed note on Alice's mark
      for today's session is gone after she is marked again. */
  lemma {:induction false} ReMarkLosesNotes(today: string, tomorrow: string, status: AttendanceStatus)
    ensures var t := Reduce(InitialState(today, tomorrow), UpdateAttendance(MarkRecord("s1", "p1", status)));
      Find(t.attendance, PairIs("s1", "p1")) == Some(MarkRecord("s1", "p1", status))
      && MockAttendance[0].notes == Some("Great footwork today.")
  {
    var rec := MarkRecord("s1", "p1", status);
    var att := MockAttendance;
    assert PairOf(rec) == Pairs(att)[0];
    UpsertShape(att, rec);
  }

  /** `playersToList`: the `|| true` makes it every player. */
  function Roster(s: AppState, selected: string): seq<Player>
  {
    match SelectedSession(s.sessions, selected)
    case None => []
    case Some(x) => Filter(s.players, (p: Player) => p.id in x.registeredPlayerIds || true)
  }

  /** With a session selected every player is listed, registered or not;
      with none, nobody is. */
  lemma {:induction false} RosterIsEveryone(s: AppState, selected: string)
    ensures SelectedSession(s.sessions, selected).Some? ==> Roster(s, selected) == s.players
    ensures SelectedSession(s.sessions, selected).None? ==> Roster(s, selected) == []
  {
    match SelectedSession(s.sessions, selected)
    case None =>
    case Some(x) =>
      FilterKeepsAll(s.players, (p: Player) => p.id in x.registeredPlayerIds || true);
  }

  /** The session picker. */
  class AttendancePage {
    var selectedSessionId: string

    /** `useState(state.sessions[0]?.id || '')` */
    constructor (sessions: seq<Session>)
      ensures selectedSessionId == if |sessions| > 0 then sessions[0].id else ""
    {
      selectedSessionId := if |sessions| > 0 then sessions[0].id else "";
    }

    method SelectSession(id: string)
      modifies this
      ensures selectedSessionId == id
    {
      selectedSessionId := id;
    }

    /** A status button: mark the player for the selected session. Without a
        session the page shows no buttons, so nothing happens. */
    method Mark(store: Store, playerId: string, status: AttendanceStatus)
      modifies store
      ensures SelectedSession(old(store.state).sessions, selectedSessionId).None? ==> store.state == old(store.state)
      ensures SelectedSession(old(store.state).sessions, selectedSessionId).Some? ==>
        store.state == Reduce(old(store.state), UpdateAttendance(
          MarkRecord(SelectedSession(old(store.state).sessions, selectedSessionId).value.id, playerId, status)))
    {
      var session := SelectedSession(store.state.sessions, selectedSessionId);
      if session.Some? {
        store.Dispatch(UpdateAttendance(MarkRecord(session.value.id, playerId, status)));
      }
    }
  }
}
