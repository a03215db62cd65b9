/**
 * Event normalisation: a raw Office 365 calendar item becomes the canonical event
 * record (`_makeEvent`), attendees become `{name, email}` pairs (`_makeParticipants`),
 * and an occurrence of a recurring series borrows its display fields from the first
 * series master with a matching id (`_makeEventFromOccurence`).
 */
module Normalize {
  import opened Wrappers

  /**
   * A provider timestamp: its `DateTime` text and the calendar day it falls on. The
   * day stands for the parse of `DateTime + 'Z'` and for `isSame(..., 'day')`.
   */
  datatype Timestamp = Timestamp(dateTime: string, day: int)

  datatype EmailAddress = EmailAddress(name: string, address: string)
  datatype Attendee = Attendee(emailAddress: EmailAddress)
  datatype Organizer = Organizer(emailAddress: Option<EmailAddress>)
  datatype Location = Location(displayName: string)
  datatype Body = Body(content: string, contentType: string)

  /** The `Type` tag of an item: the two the engine distinguishes, and the rest. */
  datatype ItemType = SeriesMaster | Occurrence | OtherType

  /** An item of a calendar-view response (`value[i]`). Absent fields are `None`. */
  datatype RawItem = RawItem(
    id: string,
    kind: ItemType,
    reason: Option<string>,
    seriesMasterId: Option<string>,
    start: Timestamp,
    end: Timestamp,
    subject: Option<string>,
    body: Body,
    bodyPreview: Option<string>,
    showAs: string,
    isAllDay: bool,
    isOrganizer: bool,
    isReminderOn: bool,
    isCancelled: bool,
    location: Option<Location>,
    organizer: Option<Organizer>,
    attendees: Option<seq<Attendee>>)

  /** One serialised participant. */
  datatype Contact = Contact(name: string, email: string)

  /**
   * The `_participants` field: `stringify` of the pairs, or the literal `'{[]}'` when
   * there are no attendees. `stringify` itself is not modelled.
   */
  datatype Participants = Placeholder | Serialized(contacts: seq<Contact>)

  /** The organizer field: the organizer's email-address record, or `''`. */
  datatype OrganizerField = NoOrganizer | OrganizerAddress(address: EmailAddress)

  /**
   * The canonical event handed back to the application. The source's record names the
   * participants field `_participants`; every other field keeps the name used here.
   */
  datatype CanonicalEvent = CanonicalEvent(
    start: Timestamp,
    end: Timestamp,
    title: Option<string>,
    providerId: string,
    body: string,
    bodyPreview: Option<string>,
    bodyType: string,
    showAs: string,
    isEditable: bool,
    isOrganizer: bool,
    isReminderOn: bool,
    isCancelled: bool,
    participants: Participants,
    organizer: OrganizerField,
    location: string,
    isAllDay: bool)

  /** The attendees as `{name, email}` pairs, in source order. */
  function ContactsOf(attendees: seq<Attendee>): (r: seq<Contact>)
  {
    seq(|attendees|, i requires 0 <= i < |attendees| =>
      Contact(attendees[i].emailAddress.name, attendees[i].emailAddress.address))
  }

  /** Whether an item has at least one attendee. */
  predicate HasAttendees(ev: RawItem) {
    ev.attendees.Some? && |ev.attendees.value| > 0
  }

  /** The participants of an item, as `_makeEvent` stores them. */
  function ParticipantsOf(ev: RawItem): Participants {
    if HasAttendees(ev) then Serialized(ContactsOf(ev.attendees.value)) else Placeholder
  }

  /** `_makeParticipants`: the attendee loop. */
  method MakeParticipants(ev: RawItem) returns (p: Participants)
    ensures p.Placeholder? <==> ev.attendees.None? || |ev.attendees.value| == 0
    ensures p.Serialized? ==>
      && |p.contacts| == |ev.attendees.value|
      && forall i :: 0 <= i < |p.contacts| ==>
           p.contacts[i] == Contact(ev.attendees.value[i].emailAddress.name,
                                    ev.attendees.value[i].emailAddress.address)
    ensures p == ParticipantsOf(ev)
  {
    if !HasAttendees(ev) {
      return Placeholder;
    }
    var attendees := ev.attendees.value;
    var result: seq<Contact> := [];
    for i := 0 to |attendees|
      invariant |result| == i
      invariant forall k :: 0 <= k < i ==>
        result[k] == Contact(attendees[k].emailAddress.name, attendees[k].emailAddress.address)
    {
      result := result + [Contact(attendees[i].emailAddress.name, attendees[i].emailAddress.address)];
    }
    p := Serialized(result);
  }

  /** `_makeEvent`. */
  function MakeEvent(ev: RawItem): (e: CanonicalEvent)
    ensures !e.isEditable
    ensures e.isAllDay <==> ev.isAllDay || ev.start.day != ev.end.day
    ensures ev.location.None? ==> e.location == ""
    ensures ev.location.Some? ==> e.location == ev.location.value.displayName
    ensures e.organizer.NoOrganizer? <==> ev.organizer.None? || ev.organizer.value.emailAddress.None?
    ensures e.organizer.OrganizerAddress? ==> Some(e.organizer.address) == ev.organizer.value.emailAddress
    ensures e.participants.Placeholder? <==> !HasAttendees(ev)
    ensures e.participants == ParticipantsOf(ev)
    ensures e.participants.Serialized? ==>
      && |e.participants.contacts| == |ev.attendees.value|
      && forall i :: 0 <= i < |e.participants.contacts| ==>
        e.participants.contacts[i] == Contact(ev.attendees.value[i].emailAddress.name,
                                              ev.attendees.value[i].emailAddress.address)
    ensures e.showAs == ev.showAs && e.isOrganizer == ev.isOrganizer
    ensures e.isReminderOn == ev.isReminderOn && e.isCancelled == ev.isCancelled
    ensures e.title == ev.subject && e.providerId == ev.id && e.body == ev.body.content
    ensures e.bodyType == ev.body.contentType && e.bodyPreview == ev.bodyPreview
    ensures e.start == ev.start && e.end == ev.end
  {
    var organizer :=
      if ev.organizer.Some? && ev.organizer.value.emailAddress.Some?
      then OrganizerAddress(ev.organizer.value.emailAddress.value)
      else NoOrganizer;
    CanonicalEvent(
      ev.start, ev.end, ev.subject, ev.id,
      ev.body.content, ev.bodyPreview, ev.body.contentType, ev.showAs,
      false, ev.isOrganizer, ev.isReminderOn, ev.isCancelled,
      ParticipantsOf(ev), organizer,
      if ev.location.Some? then ev.location.value.displayName else "",
      ev.isAllDay || ev.start.day != ev.end.day)
  }

  /** `masters.find(item => item.Id === id)`: the first master with that id. */
  function FindMaster(masters: seq<RawItem>, id: Option<string>): (r: Option<nat>)
    ensures r.Some? ==> r.value < |masters| && id == Some(masters[r.value].id)
    ensures r.Some? ==> forall k :: 0 <= k < r.value ==> id != Some(masters[k].id)
    ensures r.None? ==> forall k :: 0 <= k < |masters| ==> id != Some(masters[k].id)
  {
    if |masters| == 0 then None
    else if id == Some(masters[0].id) then Some(0)
    else match FindMaster(masters[1..], id)
      case None => None
      case Some(k) => Some(k + 1)
  }

  /** The occurrence with the four display fields taken from its master. */
  function Inherit(occurrence: RawItem, master: RawItem): RawItem {
    occurrence.(subject := master.subject, body := master.body,
                bodyPreview := master.bodyPreview, isAllDay := master.isAllDay)
  }

  /**
   * `_makeEventFromOccurence`: the identity, schedule and attendance of the event are
   * always the occurrence's own; the display fields come from the first master whose
   * id is the occurrence's series master id, if there is one.
   */
  function MakeEventFromOccurrence(occurrence: RawItem, masters: seq<RawItem>): (e: CanonicalEvent)
    ensures e.providerId == occurrence.id && e.start == occurrence.start && e.end == occurrence.end
    ensures e.showAs == occurrence.showAs && e.participants == ParticipantsOf(occurrence)
    ensures FindMaster(masters, occurrence.seriesMasterId).Some? ==>
      var m := masters[FindMaster(masters, occurrence.seriesMasterId).value];
      e.title == m.subject && e.body == m.body.content && e.bodyPreview == m.bodyPreview
    ensures FindMaster(masters, occurrence.seriesMasterId).None? ==>
      e.title == occurrence.subject && e.body == occurrence.body.content && e.bodyPreview == occurrence.bodyPreview
  {
    match FindMaster(masters, occurrence.seriesMasterId)
    case Some(k) => MakeEvent(Inherit(occurrence, masters[k]))
    case None => MakeEvent(occurrence)
  }

  /**
   * A matched occurrence shows its master's subject, body, preview and all-day flag
   * and keeps every other field of its own; an unmatched one is normalised as is.
   */
  lemma OccurrenceTakesMasterDisplayFields(occurrence: RawItem, masters: seq<RawItem>, k: nat)
    requires k < |masters| && occurrence.seriesMasterId == Some(masters[k].id)
    requires forall j :: 0 <= j < k ==> masters[j].id != masters[k].id
    ensures var e := MakeEventFromOccurrence(occurrence, masters);
      && e.title == masters[k].subject
      && e.body == masters[k].body.content
      && e.bodyType == masters[k].body.contentType
      && e.bodyPreview == masters[k].bodyPreview
      && (e.isAllDay <==> masters[k].isAllDay || occurrence.start.day != occurrence.end.day)
      && e.start == occurrence.start && e.end == occurrence.end
      && e.providerId == occurrence.id && e.showAs == occurrence.showAs
      && e.isOrganizer == occurrence.isOrganizer && e.isReminderOn == occurrence.isReminderOn
      && e.isCancelled == occurrence.isCancelled
      && e == MakeEvent(occurrence).(title := masters[k].subject, body := masters[k].body.content,
                                      bodyType := masters[k].body.contentType,
                                      bodyPreview := masters[k].bodyPreview,
                                      isAllDay := masters[k].isAllDay || occurrence.start.day != occurrence.end.day)
  {
    var r := FindMaster(masters, occurrence.seriesMasterId);
    assert r.Some?;
    assert r == Some(k);
  }

  lemma UnmatchedOccurrenceKeepsOwnFields(occurrence: RawItem, masters: seq<RawItem>)
    requires forall j :: 0 <= j < |masters| ==> occurrence.seriesMasterId != Some(masters[j].id)
    ensures MakeEventFromOccurrence(occurrence, masters) == MakeEvent(occurrence)
  {
  }
}
