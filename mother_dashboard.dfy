/**
 * The mother's dashboard (site generation): the active pregnancy with its doula, the week
 * shown in the header, and connecting to a doula by the doula's short link code, which opens a
 * new pregnancy due 280 days from now. Database reads and writes become parameters and
 * results; dates are UTC day numbers or millisecond instants.
 */
module MotherDashboard {
  import opened Wrappers
  import opened JsMath
  import opened JsText
  import opened Pregnancy
  import Ui

  /** The doula joined to a pregnancy (`doula:doula_id(*)`). */
  datatype Doula = Doula(id: string, fullName: string, phone: Option<string>)

  /** The mother's active pregnancy; the due date is a UTC day number. */
  datatype ActivePregnancy = ActivePregnancy(id: string, dueDay: int, doula: Option<Doula>)

  /** The row inserted when the mother connects to a doula. */
  datatype PregnancyInsert = PregnancyInsert(
    motherId: string, doulaId: string, isActive: bool, dueDay: int)

  /** The code as it is looked up: trimmed and upper-cased. */
  function CleanCode(code: string): (r: string)
    ensures |r| == |JsTrim(code)|
    ensures forall i :: 0 <= i < |r| ==> r[i] == UpperChar(JsTrim(code)[i])
  {
    ToUpper(JsTrim(code))
  }

  /** A code of white space alone is rejected before any lookup. */
  lemma BlankCodeRejected(code: string)
    ensures CleanCode(code) == [] <==> forall i :: 0 <= i < |code| ==> IsJsSpace(code[i])
  {
    TrimEmptyIff(code, IsJsSpace);
  }

  /**
   * `new Date(now + 280 days).toISOString().split("T")[0]`: the UTC calendar day 280 days
   * after the instant `now`.
   */
  function DueDayFrom(now: int): (r: int)
    ensures DayMs * r <= now + TermDays * DayMs < DayMs * r + DayMs
  {
    FloorDiv(now + TermDays * DayMs, DayMs)
  }

  /** The new due date is exactly 280 days after today's UTC date. */
  lemma DueDayIsTodayPlusTerm(now: int)
    ensures DueDayFrom(now) == FloorDiv(now, DayMs) + TermDays
  {
    var d := DueDayFrom(now);
    assert DayMs * (d - TermDays) <= now < DayMs * (d - TermDays) + DayMs;
  }

  /** The header's week: `Math.max(1, 40 - floor((due - now) / week))`. */
  function WeekShown(dueDay: int, now: int): (r: int)
    ensures r >= 1
    ensures r == Max(1, RawWeek(DayMs * dueDay, now))
  {
    Max(1, RawWeek(DayMs * dueDay, now))
  }

  /** Right after connecting, the new pregnancy is shown in week 1. */
  lemma NewPregnancyInWeekOne(now: int)
    ensures WeekShown(DueDayFrom(now), now) == 1
  {
    var d := DueDayFrom(now);
    var x := DayMs * d - now;
    assert TermDays * DayMs - DayMs < x <= TermDays * DayMs;
    var q := FloorDiv(x, WeekMs);
    assert WeekMs * q <= x < WeekMs * q + WeekMs;
    assert RawWeek(DayMs * d, now) == 40 - q;
  }

  /** What the page renders: the spinner, the connect-to-a-doula form, or the dashboard. */
  datatype View = Spinner | ConnectForm | Dashboard

  /** The page's state. */
  class MotherDashboardPage {
    const motherId: string
    var pregnancy: Option<ActivePregnancy>
    var doula: Option<Doula>
    var doulaCode: string
    var linking: bool
    var loading: bool

    constructor(motherId: string)
      ensures this.motherId == motherId
      ensures pregnancy == None && doula == None && doulaCode == [] && !linking && loading
      ensures Shown() == Spinner
    {
      this.motherId := motherId;
      pregnancy := None;
      doula := None;
      doulaCode := [];
      linking := false;
      loading := true;
    }

    /**
     * The page's early returns: the spinner while loading, then the connect form when
     * there is no active pregnancy, and the dashboard otherwise.
     */
    function Shown(): (v: View)
      reads this
      ensures v == Spinner <==> loading
      ensures v == ConnectForm <==> !loading && pregnancy.None?
      ensures v == Dashboard <==> !loading && pregnancy.Some?
    {
      if loading then Spinner else if pregnancy.None? then ConnectForm else Dashboard
    }

    /**
     * `fetchData`: a found pregnancy and its doula replace the state; when none is found,
     * or the query fails, the previous state stays as it was.
     */
    method FetchData(found: Option<ActivePregnancy>)
      modifies this`pregnancy, this`doula, this`loading
      ensures found.Some? ==> pregnancy == found && doula == found.value.doula
      ensures found.None? ==> pregnancy == old(pregnancy) && doula == old(doula)
      ensures !loading
      ensures Shown() == (if found.Some? || old(pregnancy).Some? then Dashboard else ConnectForm)
    {
      loading := true;
      if found.Some? {
        pregnancy := found;
        doula := found.value.doula;
      }
      loading := false;
    }

    /**
     * `handleConnectDoula`: a blank code is rejected without a lookup; a code that finds no
     * doula inserts nothing; otherwise a pregnancy is inserted for the mother and the doula,
     * due 280 days from now, and the page refetches only when the insert succeeds. The
     * linking flag is clear afterwards in every case.
     */
    method HandleConnectDoula(lookup: string -> Option<Doula>, insertOk: bool, now: int)
      returns (insert: Option<PregnancyInsert>, refetch: bool)
      modifies this`linking
      ensures var code := CleanCode(doulaCode);
        && (code == [] ==> insert.None?)
        && (code != [] && lookup(code).None? ==> insert.None?)
        && (code != [] && lookup(code).Some? ==>
              insert == Some(PregnancyInsert(motherId, lookup(code).value.id, true, DueDayFrom(now))))
      ensures refetch <==> insert.Some? && insertOk
      ensures !linking || (CleanCode(doulaCode) == [] && linking == old(linking))
    {
      var code := CleanCode(doulaCode);
      if code == [] {
        return None, false;
      }
      linking := true;
      var found := lookup(code);
      if found.None? {
        linking := false;
        return None, false;
      }
      insert := Some(PregnancyInsert(motherId, found.value.id, true, DueDayFrom(now)));
      refetch := insertOk;
      linking := false;
    }

    /** The WhatsApp button links to the doula's phone digits. */
    function WhatsApp(): (r: Option<string>)
      reads this
      ensures r.None? <==> doula.None?
      ensures doula.Some? ==> r == Some(Ui.WhatsAppLink(doula.value.phone))
    {
      if doula.Some? then Some(Ui.WhatsAppLink(doula.value.phone)) else None
    }
  }
}
