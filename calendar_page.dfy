/**
 * The doula's calendar: the event list built from the clients' due dates and their
 * meetings, the dialog opened on an empty slot or an existing event, saving and deleting
 * a meeting, and the colour of each event. Instants are integer milliseconds; the
 * `yyyy-MM-dd'T'HH:mm` text of the form's inputs is the instant it denotes, which has no
 * seconds, and an empty input is `None`.
 */
module CalendarPage {
  import opened Wrappers
  import opened Seqs

  const HourMs: int := 3600000
  const MinuteMs: int := 60000

  /**
   * The instant a date-time input holds after the form is filled from `t` with
   * `format(t, "yyyy-MM-dd'T'HH:mm")` and read back with `new Date(..)`: `t` cut to the
   * start of its minute (every zone offset in use is a whole number of minutes).
   */
  function FormInstant(t: int): (r: int)
    ensures r <= t < r + MinuteMs
    ensures r % MinuteMs == 0
  {
    t - t % MinuteMs
  }

  /** Cutting to the minute keeps whole minutes, so filling the form from its own value changes nothing. */
  lemma FormInstantKeepsMinutes(t: int)
    ensures t % MinuteMs == 0 <==> FormInstant(t) == t
    ensures FormInstant(FormInstant(t)) == FormInstant(t)
  {
  }

  /** An hour is a whole number of minutes, so the form's end is one hour after its start. */
  lemma FormHourLater(t: int)
    ensures FormInstant(t + HourMs) == FormInstant(t) + HourMs
  {
    assert HourMs == 60 * MinuteMs;
  }

  datatype EventKind = Meeting | BirthDate | Other

  /** An entry of the calendar. */
  datatype CalendarEvent = CalendarEvent(
    id: string, title: string, start: int, end: int, allDay: bool, kind: EventKind,
    pregnancyId: Option<string>, content: Option<string>)

  /** The joined `profiles` row of the mother; `full_name` may be `null`. */
  datatype Profile = Profile(fullName: Option<string>)

  /**
   * A fetched active pregnancy; the due date is optional, and the joined profile is
   * `null` when the mother has no profile row.
   */
  datatype PregnancyRow = PregnancyRow(id: string, dueDate: Option<int>, profile: Option<Profile>)

  /** A fetched row of `pregnancy_events`. */
  datatype EventRow = EventRow(
    id: string, title: string, eventDate: int, pregnancyId: string, content: Option<string>)

  /** The dialog's form. */
  datatype EventForm = EventForm(
    title: string, start: Option<int>, end: Option<int>, pregnancyId: string, content: string)

  const EmptyForm: EventForm := EventForm("", None, None, "", "")

  /** A nullable text inside a template literal: `null` is written as the word. */
  function Interpolated(v: Option<string>): string {
    if v.Some? then v.value else "null"
  }

  /**
   * The due-date entry of a pregnancy: all day, starting and ending on the due date, and
   * titled with the mother's name, the word `null` when the name is missing.
   */
  function BirthEvent(p: PregnancyRow): (e: CalendarEvent)
    requires p.dueDate.Some? && p.profile.Some?
    ensures e.id == "birth-" + p.id && e.title == "תל\"מ: " + Interpolated(p.profile.value.fullName)
    ensures p.profile.value.fullName.None? ==> e.title == "תל\"מ: null"
    ensures e.start == e.end == p.dueDate.value && e.allDay
    ensures e.kind == BirthDate && e.pregnancyId == Some(p.id)
  {
    CalendarEvent("birth-" + p.id, "תל\"מ: " + Interpolated(p.profile.value.fullName), p.dueDate.value,
      p.dueDate.value, true, BirthDate, Some(p.id), None)
  }

  /** Reading `p.profiles.full_name` throws for a pregnancy with a due date and no profile. */
  predicate Throws(p: PregnancyRow) {
    p.dueDate.Some? && p.profile.None?
  }

  /** A meeting entry: it lasts one hour from the event's date. */
  function MeetingEvent(r: EventRow): (e: CalendarEvent)
    ensures e.id == r.id && e.title == r.title && e.kind == Meeting && !e.allDay
    ensures e.start == r.eventDate && e.end == e.start + HourMs
    ensures e.pregnancyId == Some(r.pregnancyId) && e.content == r.content
  {
    CalendarEvent(r.id, r.title, r.eventDate, r.eventDate + HourMs, false, Meeting,
      Some(r.pregnancyId), r.content)
  }

  /**
   * One due-date entry for each pregnancy that has a due date, in order; `None` when the
   * loop throws on a pregnancy with a due date and no profile.
   */
  function BirthEvents(ps: seq<PregnancyRow>): (r: Option<seq<CalendarEvent>>)
    ensures r.None? <==> exists i :: 0 <= i < |ps| && Throws(ps[i])
    ensures r.Some? ==> |r.value| <= |ps|
    ensures r.Some? ==> forall i :: 0 <= i < |r.value| ==>
      r.value[i].kind == BirthDate && r.value[i].allDay && r.value[i].start == r.value[i].end
  {
    if ps == [] then Some([])
    else
      var init, last := ps[..|ps| - 1], ps[|ps| - 1];
      assert forall i :: 0 <= i < |init| ==> init[i] == ps[i];
      match BirthEvents(init)
      case None => None
      case Some(es) =>
        if Throws(last) then None
        else Some(es + (if last.dueDate.Some? then [BirthEvent(last)] else []))
  }

  /** The number of due-date entries is the number of pregnancies with a due date. */
  lemma {:induction false} BirthEventCount(ps: seq<PregnancyRow>)
    requires BirthEvents(ps).Some?
    ensures |BirthEvents(ps).value| == Count(ps, (p: PregnancyRow) => p.dueDate.Some?)
  {
    if ps != [] {
      var has := (p: PregnancyRow) => p.dueDate.Some?;
      var init := ps[..|ps| - 1];
      assert forall i :: 0 <= i < |init| ==> init[i] == ps[i];
      BirthEventCount(init);
      CountSnoc(init, ps[|ps| - 1], has);
      assert init + [ps[|ps| - 1]] == ps;
    }
  }

  /** Counting over a sequence with one more element at the end. */
  lemma {:induction false} CountSnoc<T>(s: seq<T>, x: T, p: T -> bool)
    ensures Count(s + [x], p) == Count(s, p) + (if p(x) then 1 else 0)
  {
    if s == [] {
      assert [x][1..] == [];
    } else {
      assert (s + [x])[1..] == s[1..] + [x];
      CountSnoc(s[1..], x, p);
    }
  }

  /** One meeting entry per event row, in order. */
  function Meetings(rows: seq<EventRow>): (r: seq<CalendarEvent>)
    ensures |r| == |rows|
    ensures forall i :: 0 <= i < |rows| ==> r[i] == MeetingEvent(rows[i])
  {
    seq(|rows|, i requires 0 <= i < |rows| => MeetingEvent(rows[i]))
  }

  /**
   * The list `fetchData` builds by pushing: first the due-date entries, then the meetings,
   * each in the order fetched; `None` when a due-date entry throws, which abandons the list.
   */
  method BuildEvents(ps: seq<PregnancyRow>, rows: seq<EventRow>) returns (events: Option<seq<CalendarEvent>>)
    ensures events.None? <==> BirthEvents(ps).None?
    ensures events.Some? ==> events.value == BirthEvents(ps).value + Meetings(rows)
  {
    var pushed := [];
    var i := 0;
    while i < |ps|
      invariant 0 <= i <= |ps|
      invariant BirthEvents(ps[..i]) == Some(pushed)
    {
      assert ps[..i + 1][..i] == ps[..i];
      if Throws(ps[i]) {
        assert ps[..|ps|] == ps;
        return None;
      }
      assert ps[..i + 1][i] == ps[i];
      assert BirthEvents(ps[..i + 1])
        == Some(pushed + (if ps[i].dueDate.Some? then [BirthEvent(ps[i])] else []));
      if ps[i].dueDate.Some? {
        pushed := pushed + [BirthEvent(ps[i])];
      } else {
        assert pushed + [] == pushed;
      }
      i := i + 1;
    }
    assert ps[..|ps|] == ps;
    var j := 0;
    while j < |rows|
      invariant 0 <= j <= |rows|
      invariant pushed == BirthEvents(ps).value + Meetings(rows[..j])
    {
      assert Meetings(rows[..j + 1]) == Meetings(rows[..j]) + [MeetingEvent(rows[j])];
      pushed := pushed + [MeetingEvent(rows[j])];
      j := j + 1;
    }
    assert rows[..|rows|] == rows;
    events := Some(pushed);
  }

  /** Every entry of a built list is a due date with no duration or a one-hour meeting. */
  lemma BuiltEventsShape(ps: seq<PregnancyRow>, rows: seq<EventRow>, e: CalendarEvent)
    requires BirthEvents(ps).Some? && e in BirthEvents(ps).value + Meetings(rows)
    ensures e.kind == BirthDate ==> e.start == e.end && e.allDay
    ensures e.kind != BirthDate ==> e.kind == Meeting && e.end == e.start + HourMs
  {
  }

  /** The colour of an entry: red for a due date, green for everything else. */
  function EventColour(e: CalendarEvent): (r: string)
    ensures r == "#e11d48" <==> e.kind == BirthDate
    ensures r == "#10b981" <==> e.kind != BirthDate
  {
    if e.kind == BirthDate then "#e11d48" else "#10b981"
  }

  /** The row written on save. */
  datatype EventPayload = EventPayload(
    pregnancyId: string, title: string, content: string, eventDate: int, eventType: string,
    createdBy: Option<string>)

  /** What a save sends: nothing, an update of the selected event, or an insert. */
  datatype SaveAction = NoSave | UpdateEvent(id: string, payload: EventPayload) | InsertEvent(payload: EventPayload)

  /**
   * The decision in `handleSave`: a title, a pregnancy and a start are required; an
   * editing dialog with a selected event updates it, anything else inserts; the event
   * type is always `meeting`.
   */
  function SaveActionOf(form: EventForm, isEditing: bool, selected: Option<string>, userId: Option<string>): (r: SaveAction)
    ensures r == NoSave <==> form.title == [] || form.pregnancyId == [] || form.start.None?
    ensures r.UpdateEvent? <==> r != NoSave && isEditing && Truthy(selected)
    ensures r.UpdateEvent? ==> r.id == selected.value
    ensures r != NoSave ==>
      r.payload == EventPayload(form.pregnancyId, form.title, form.content, form.start.value, "meeting", userId)
  {
    if form.title == [] || form.pregnancyId == [] || form.start.None? then NoSave
    else
      var payload := EventPayload(form.pregnancyId, form.title, form.content, form.start.value, "meeting", userId);
      if isEditing && Truthy(selected) then UpdateEvent(selected.value, payload) else InsertEvent(payload)
  }

  /**
   * A dialog opened on an empty slot and filled in inserts a new meeting at the start of
   * the slot's minute: exactly at the slot when it is a whole minute, and up to a minute
   * earlier otherwise, as with the `new Date()` of the new-event button.
   */
  lemma SlotSaveInserts(start: int, title: string, pregnancyId: string, content: string, userId: Option<string>)
    requires title != [] && pregnancyId != []
    ensures SaveActionOf(EventForm(title, Some(FormInstant(start)), Some(FormInstant(start + HourMs)), pregnancyId, content), false, None, userId)
         == InsertEvent(EventPayload(pregnancyId, title, content, FormInstant(start), "meeting", userId))
    ensures start - MinuteMs < FormInstant(start) <= start
    ensures FormInstant(start) == start <==> start % MinuteMs == 0
  {
    FormInstantKeepsMinutes(start);
  }

  /** The page's state. */
  class CalendarPageState {
    var events: seq<CalendarEvent>
    var isDialogOpen: bool
    var isEditing: bool
    var selectedEventId: Option<string>
    var formData: EventForm

    constructor()
      ensures events == [] && !isDialogOpen && !isEditing && selectedEventId == None
      ensures formData == EmptyForm
    {
      events := [];
      isDialogOpen := false;
      isEditing := false;
      selectedEventId := None;
      formData := EmptyForm;
    }

    /**
     * `fetchData` with a signed-in user: the list is rebuilt from the fetched rows; when
     * building it throws, the error is logged and the old list stays.
     */
    method FetchData(ps: seq<PregnancyRow>, rows: seq<EventRow>)
      modifies this`events
      ensures BirthEvents(ps).Some? ==> events == BirthEvents(ps).value + Meetings(rows)
      ensures BirthEvents(ps).None? ==> events == old(events)
    {
      var built := BuildEvents(ps, rows);
      if built.Some? {
        events := built.value;
      }
    }

    /**
     * `handleSelectSlot`: a new-event dialog for one hour from the chosen slot, both
     * inputs cut to the minute.
     */
    method HandleSelectSlot(start: int)
      modifies this`isEditing, this`selectedEventId, this`formData, this`isDialogOpen
      ensures !isEditing && selectedEventId == None && isDialogOpen
      ensures formData == EventForm("", Some(FormInstant(start)), Some(FormInstant(start + HourMs)), "", "")
      ensures formData.end.value == formData.start.value + HourMs
      ensures start - MinuteMs < formData.start.value <= start
    {
      isEditing := false;
      selectedEventId := None;
      formData := EventForm("", Some(FormInstant(start)), Some(FormInstant(start + HourMs)), "", "");
      isDialogOpen := true;
      FormHourLater(start);
    }

    /**
     * `handleSelectEvent`: a due-date entry opens nothing and changes nothing; any other
     * entry opens the dialog editing it, with a missing pregnancy or content read as `""`.
     */
    method HandleSelectEvent(e: CalendarEvent)
      modifies this`isEditing, this`selectedEventId, this`formData, this`isDialogOpen
      ensures e.kind == BirthDate ==>
        isEditing == old(isEditing) && selectedEventId == old(selectedEventId)
        && formData == old(formData) && isDialogOpen == old(isDialogOpen)
      ensures e.kind != BirthDate ==>
        isEditing && selectedEventId == Some(e.id) && isDialogOpen
        && formData == EventForm(e.title, Some(FormInstant(e.start)), Some(FormInstant(e.end)),
             e.pregnancyId.GetOr(""), e.content.GetOr(""))
    {
      if e.kind == BirthDate {
        return;
      }
      isEditing := true;
      selectedEventId := Some(e.id);
      formData := EventForm(e.title, Some(FormInstant(e.start)), Some(FormInstant(e.end)),
        e.pregnancyId.GetOr(""), e.content.GetOr(""));
      isDialogOpen := true;
    }

    /**
     * `handleSave`: the request decided by `SaveActionOf`; a successful write closes the
     * dialog and asks for a refetch, a failed one leaves the dialog open.
     */
    method HandleSave(userId: Option<string>, writeOk: bool) returns (action: SaveAction, refetch: bool)
      modifies this`isDialogOpen
      ensures action == SaveActionOf(formData, isEditing, selectedEventId, userId)
      ensures refetch <==> action != NoSave && writeOk
      ensures isDialogOpen == (if refetch then false else old(isDialogOpen))
    {
      action := SaveActionOf(formData, isEditing, selectedEventId, userId);
      refetch := action != NoSave && writeOk;
      if refetch {
        isDialogOpen := false;
      }
    }

    /**
     * `handleDelete`: nothing without a selected event or without the user's confirmation;
     * otherwise the selected event is deleted, and a successful delete closes the dialog.
     */
    method HandleDelete(confirmed: bool, deleteOk: bool) returns (deleted: Option<string>, refetch: bool)
      modifies this`isDialogOpen
      ensures deleted.Some? <==> Truthy(selectedEventId) && confirmed
      ensures deleted.Some? ==> deleted == selectedEventId
      ensures refetch <==> deleted.Some? && deleteOk
      ensures isDialogOpen == (if refetch then false else old(isDialogOpen))
    {
      if !Truthy(selectedEventId) || !confirmed {
        return None, false;
      }
      deleted := selectedEventId;
      refetch := deleteOk;
      if refetch {
        isDialogOpen := false;
      }
    }
  }
}
