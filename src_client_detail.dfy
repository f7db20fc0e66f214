/**
 * The doula's client page (first generation): pregnancy progress counted from the last
 * menstrual period or back from the due date, the mother's age, timeline icons and the
 * name and avatar fallbacks. `today` and the dates are integer milliseconds.
 */
module SrcClientDetail {
  import opened Wrappers
  import opened JsMath
  import opened Pregnancy

  /** The week of pregnancy and the day within it. */
  datatype Progress = Progress(week: int, day: int)

  /**
   * The start of the pregnancy: the last-period date when there is one, otherwise 280 days
   * before the due date; nothing when neither is known.
   */
  function StartDate(lmp: Option<int>, due: Option<int>): (r: Option<int>)
    ensures lmp.Some? ==> r == lmp
    ensures lmp.None? && due.Some? ==> r == Some(due.value - TermDays * DayMs)
    ensures r.None? <==> lmp.None? && due.None?
  {
    if lmp.Some? then lmp
    else if due.Some? then Some(due.value - TermDays * DayMs)
    else None
  }

  /** `Math.ceil(Math.abs(today - start) / day)`: whole days, rounded up, either way round. */
  function DiffDays(start: int, today: int): (r: nat)
    ensures DayMs * r - DayMs < Abs(today - start) <= DayMs * r
  {
    CeilDiv(Abs(today - start), DayMs)
  }

  /**
   * `calculatePregnancyProgress`: week `floor(days / 7)` clamped to 0..42, and the day
   * `days % 7`, which is not clamped; week 0, day 0 when no date is known.
   */
  function PregnancyProgress(lmp: Option<int>, due: Option<int>, today: int): (r: Progress)
    ensures StartDate(lmp, due).None? ==> r == Progress(0, 0)
    ensures StartDate(lmp, due).Some? ==>
      var days := DiffDays(StartDate(lmp, due).value, today);
      && r.week == Min(42, days / 7)
      && r.day == days % 7
    ensures 0 <= r.week <= 42 && 0 <= r.day < 7
  {
    match StartDate(lmp, due)
    case None => Progress(0, 0)
    case Some(start) =>
      var days := DiffDays(start, today);
      Progress(Min(42, Max(0, FloorDiv(days, 7))), days % 7)
  }

  /** Past the clamp the week stays at 42 while the day keeps counting: 310 days is (42, 2). */
  lemma ProgressAfterTerm(lmp: int)
    ensures PregnancyProgress(Some(lmp), None, lmp + 310 * DayMs) == Progress(42, 2)
  {
    assert DiffDays(lmp, lmp + 310 * DayMs) == 310;
  }

  /** A start date in the future counts the same as one equally far in the past. */
  lemma ProgressSymmetric(start: int, today: int)
    ensures PregnancyProgress(Some(start), None, today)
         == PregnancyProgress(Some(today), None, start)
  {
  }

  /** Counting from the due date, the due date itself is day 280: week 40, day 0. */
  lemma ProgressAtDueDate(due: int)
    ensures PregnancyProgress(None, Some(due), due) == Progress(40, 0)
  {
    assert DiffDays(due - TermDays * DayMs, due) == 280;
  }

  /**
   * `calculateAge`: nothing for an empty date of birth; otherwise the number of whole
   * years, which the page reads off the calendar year of the elapsed time (`yearsIn`).
   */
  function CalculateAge(dob: Option<int>, now: int, yearsIn: int -> int): (r: Option<nat>)
    ensures r.None? <==> dob.None?
    ensures r.Some? ==> r.value == Abs(yearsIn(now - dob.value))
  {
    if dob.None? then None else Some(Abs(yearsIn(now - dob.value)))
  }

  /** The style of a timeline entry. */
  datatype EventStyle = MeetingStyle | PhoneCallStyle | NoteStyle | CheckupStyle | DefaultStyle

  /** `getEventIcon`: four known event types have their own style, all others the default. */
  function EventIcon(eventType: string): (r: EventStyle)
    ensures r == MeetingStyle <==> eventType == "meeting"
    ensures r == PhoneCallStyle <==> eventType == "phone_call"
    ensures r == NoteStyle <==> eventType == "note"
    ensures r == CheckupStyle <==> eventType == "checkup"
  {
    if eventType == "meeting" then MeetingStyle
    else if eventType == "phone_call" then PhoneCallStyle
    else if eventType == "note" then NoteStyle
    else if eventType == "checkup" then CheckupStyle
    else DefaultStyle
  }

  const NamePlaceholder: string := "שם לא זמין"

  /** The mother's name, or the placeholder when it is missing or empty. */
  function MotherName(fullName: Option<string>): (r: string)
    ensures r != []
    ensures Truthy(fullName) ==> r == fullName.value
    ensures !Truthy(fullName) ==> r == NamePlaceholder
  {
    if Truthy(fullName) then fullName.value else NamePlaceholder
  }

  /** `name[0] || "?"`: the first character, or `?` for an empty name. */
  function AvatarLetter(name: string): (r: string)
    ensures |r| == 1
    ensures name != [] ==> r == [name[0]]
  {
    if name == [] then "?" else [name[0]]
  }

  /** Because the name is never empty, the avatar always shows its first character. */
  lemma AvatarIsFirstLetter(fullName: Option<string>)
    ensures AvatarLetter(MotherName(fullName)) == [MotherName(fullName)[0]]
    ensures AvatarLetter(MotherName(fullName)) != "?" || MotherName(fullName)[0] == '?'
  {
  }
}
