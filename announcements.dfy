/** The Announcements page (pages/Announcements.tsx): the guarded "Post"
    button, the announcement it builds and the form reset after posting.
    The draft text normally comes from an AI service, which is not part of
    this model: here the text is whatever the message box holds. */
module AnnouncementsPage {
  import opened Common
  import opened Text
  import opened Types
  import opened AppStore

  /** The announcement `handlePost` dispatches. */
  function NewAnnouncement(topic: string, text: string, audience: Audience, currentUser: Option<User>,
                           now: nat, today: string): (a: Announcement)
    ensures a.id == "ann" + NatToString(now)
    ensures topic != "" ==> a.title == topic
    ensures topic == "" ==> a.title == "New Announcement"
    ensures a.message == text && a.date == today && a.targetAudience == audience
    ensures a.authorId == UserIdOr(currentUser, "admin")
  {
    Announcement("ann" + NatToString(now), OrElse(Some(topic), "New Announcement"), text, today, audience,
      UserIdOr(currentUser, "admin"))
  }

  /** The posted announcement heads the list, above all earlier ones, and
      nothing else in the state changes. */
  lemma {:induction false} PostedFirst(s: AppState, a: Announcement)
    ensures var t := Reduce(s, AddAnnouncement(a));
      && t.announcements[0] == a && t.announcements[1..] == s.announcements
      && t == s.(announcements := t.announcements)
  {
    assert ([a] + s.announcements)[1..] == s.announcements;
  }

  /** Posting twice shows the later announcement first. */
  lemma {:induction false} LatestFirst(s: AppState, a: Announcement, b: Announcement)
    ensures Reduce(Reduce(s, AddAnnouncement(a)), AddAnnouncement(b)).announcements == [b, a] + s.announcements
  {
  }

  /** The announcement form. */
  class AnnouncementsPage {
    var topic: string
    var audience: Audience
    var generatedText: string

    constructor ()
      ensures topic == "" && audience == Everyone && generatedText == ""
    {
      topic, audience, generatedText := "", Everyone, "";
    }

    /** Typing into the message box (or receiving a draft). */
    method EditText(text: string)
      modifies this
      ensures generatedText == text && topic == old(topic) && audience == old(audience)
    {
      generatedText := text;
    }

    /** "Post Announcement": nothing happens without a message; otherwise
        the announcement is dispatched and topic and message are cleared,
        while the chosen audience stays. */
    method Post(store: Store, now: nat, today: string)
      modifies this, store
      ensures old(generatedText) == "" ==>
        store.state == old(store.state) && topic == old(topic) && generatedText == ""
      ensures old(generatedText) != "" ==>
        && store.state == Reduce(old(store.state), AddAnnouncement(
             NewAnnouncement(old(topic), old(generatedText), old(audience), old(store.state.currentUser), now, today)))
        && topic == "" && generatedText == ""
      ensures audience == old(audience)
    {
      if generatedText == "" {
        return;
      }
      store.Dispatch(AddAnnouncement(NewAnnouncement(topic, generatedText, audience, store.state.currentUser, now, today)));
      topic, generatedText := "", "";
    }
  }
}
