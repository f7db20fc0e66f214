/**
 * The mother's "digital delivery room" page (site generation): a start/stop button that
 * opens and closes a stored contraction, an intensity slider, the water-break and
 * mucus-plug reports, and the recent history with the gap between contractions. Database
 * calls become their results, passed in as parameters; `now` is an integer millisecond.
 */
module SiteContractionTimerPage {
  import opened Wrappers
  import opened JsMath
  import opened ContractionDisplay

  /** The active pregnancy row the page loads for the signed-in mother. */
  datatype PregnancyRow = PregnancyRow(
    id: string, doulaId: Option<string>, waterBreakTime: Option<int>, mucusPlugTime: Option<int>)

  /** A `medical_update` notification inserted for the doula. */
  datatype Notice = Notice(doulaId: string, pregnancyId: string, isWater: bool)

  /** The slider's default and bounds. */
  const DefaultIntensity: int := 5
  const MinIntensity: int := 1
  const MaxIntensity: int := 10

  /**
   * The new value of a water-break or mucus-plug time after pressing its button at `now`:
   * a recorded time is cleared only when the mother confirms and the update succeeds; an
   * empty one is set to `now` when the update succeeds; a failed update changes nothing.
   */
  function NextMark(current: Option<int>, confirmed: bool, ok: bool, now: int): (r: Option<int>)
    ensures r != current ==> ok
    ensures current.Some? ==> (r == None <==> confirmed && ok) && (r.Some? ==> r == current)
    ensures current.None? ==> (r == Some(now) <==> ok) && (r.Some? ==> r == Some(now))
  {
    if current.Some? then (if confirmed && ok then None else current)
    else if ok then Some(now) else current
  }

  /** Reporting and then cancelling, both successfully, leaves the field empty again. */
  lemma ReportThenCancel(confirmed: bool, now: int, later: int)
    ensures NextMark(NextMark(None, confirmed, true, now), true, true, later) == None
  {
  }

  /**
   * The gap shown beside history entry `i` (newest first): whole minutes, floored, from the
   * end of the next older entry to the start of this one; nothing when that older entry is
   * missing or has no end time. The label is red when the gap is under five minutes.
   */
  function GapMinutes(history: seq<ContractionRow>, i: nat): (r: Option<int>)
    requires i < |history|
    ensures r.Some? <==> i + 1 < |history| && history[i + 1].endTime.Some?
    ensures r.Some? ==>
      60000 * r.value <= history[i].startTime - history[i + 1].endTime.value
      < 60000 * r.value + 60000
  {
    if i + 1 < |history| && history[i + 1].endTime.Some? then
      Some(FloorDiv(history[i].startTime - history[i + 1].endTime.value, 60000))
    else None
  }

  /**
   * The gap label is red under five floored minutes: exactly when the older contraction
   * ended less than five minutes before this one started.
   */
  predicate GapIsUrgent(history: seq<ContractionRow>, i: nat)
    requires i < |history|
    ensures GapIsUrgent(history, i) <==>
      i + 1 < |history| && history[i + 1].endTime.Some?
      && history[i].startTime - history[i + 1].endTime.value < 5 * 60000
  {
    GapMinutes(history, i).Some? && GapMinutes(history, i).value < 5
  }

  /** When the older contraction ended before this one started, the gap is never negative. */
  lemma GapNonNegative(history: seq<ContractionRow>, i: nat)
    requires i + 1 < |history| && history[i + 1].endTime.Some?
    requires history[i + 1].endTime.value <= history[i].startTime
    ensures GapMinutes(history, i).Some? && GapMinutes(history, i).value >= 0
  {
  }

  /** The page's state. */
  class TimerPage {
    var activeContraction: Option<ContractionRow>
    var pregnancyId: Option<string>
    var doulaId: Option<string>
    var seconds: int
    var intensity: int
    var history: seq<ContractionRow>
    var waterBreakTime: Option<int>
    var mucusPlugTime: Option<int>
    /** Notifications inserted for the doula, oldest first. */
    var sent: seq<Notice>

    /** The stopwatch reads 0 whenever no contraction is open; the slider stays in range. */
    ghost predicate Valid()
      reads this
    {
      (activeContraction.None? ==> seconds == 0) && MinIntensity <= intensity <= MaxIntensity
    }

    constructor ()
      ensures Valid()
      ensures activeContraction == None && pregnancyId == None && doulaId == None
      ensures seconds == 0 && intensity == DefaultIntensity && history == []
      ensures waterBreakTime == None && mucusPlugTime == None && sent == []
    {
      activeContraction := None;
      pregnancyId := None;
      doulaId := None;
      seconds := 0;
      intensity := DefaultIntensity;
      history := [];
      waterBreakTime := None;
      mucusPlugTime := None;
      sent := [];
    }

    /**
     * The mount-time load: the active pregnancy (if any) sets the ids and the two report
     * times; an open contraction found for it is resumed with the seconds already elapsed
     * at `now`; a fetched history replaces the current one.
     */
    method Load(preg: Option<PregnancyRow>, open: Option<ContractionRow>,
                fetched: Option<seq<ContractionRow>>, now: int)
      requires Valid()
      modifies this
      ensures Valid()
      ensures preg.None? ==>
        pregnancyId == old(pregnancyId) && doulaId == old(doulaId)
        && activeContraction == old(activeContraction) && seconds == old(seconds)
        && history == old(history) && waterBreakTime == old(waterBreakTime)
        && mucusPlugTime == old(mucusPlugTime)
      ensures preg.Some? ==>
        pregnancyId == Some(preg.value.id) && doulaId == preg.value.doulaId
        && waterBreakTime == preg.value.waterBreakTime
        && mucusPlugTime == preg.value.mucusPlugTime
        && (open.Some? ==>
              activeContraction == open
              && seconds == FloorDiv(now - open.value.startTime, 1000))
        && (open.None? ==>
              activeContraction == old(activeContraction) && seconds == old(seconds))
        && history == (if fetched.Some? then fetched.value else old(history))
      ensures intensity == old(intensity) && sent == old(sent)
    {
      if preg.Some? {
        pregnancyId := Some(preg.value.id);
        doulaId := preg.value.doulaId;
        waterBreakTime := preg.value.waterBreakTime;
        mucusPlugTime := preg.value.mucusPlugTime;
        if open.Some? {
          activeContraction := open;
          seconds := FloorDiv(now - open.value.startTime, 1000);
        }
        if fetched.Some? {
          history := fetched.value;
        }
      }
    }

    /** One second of the interval timer, which runs only while a contraction is open. */
    method Tick()
      requires Valid()
      modifies this`seconds
      ensures Valid()
      ensures seconds == if activeContraction.Some? then old(seconds) + 1 else old(seconds)
    {
      if activeContraction.Some? {
        seconds := seconds + 1;
      }
    }

    /** The slider, whose range is 1 to 10. */
    method SetIntensity(v: int)
      requires Valid() && MinIntensity <= v <= MaxIntensity
      modifies this`intensity
      ensures Valid() && intensity == v
    {
      intensity := v;
    }

    /**
     * The start button at `now`: without a pregnancy id nothing is sent and nothing
     * happens; otherwise a row for the pregnancy starting at `now` is inserted, and the
     * inserted row, when the insert succeeded, becomes the open contraction.
     */
    method Start(now: int, inserted: Option<ContractionRow>) returns (insert: Option<StartInsert>)
      requires Valid()
      modifies this`activeContraction
      ensures Valid()
      ensures insert.Some? <==> Truthy(pregnancyId)
      ensures insert.Some? ==> insert.value == StartInsert(pregnancyId.value, now)
      ensures activeContraction ==
        if Truthy(pregnancyId) && inserted.Some? then inserted else old(activeContraction)
    {
      insert := None;
      if !Truthy(pregnancyId) {
        return;
      }
      insert := Some(StartInsert(pregnancyId.value, now));
      if inserted.Some? {
        activeContraction := inserted;
      }
    }

    /**
     * The stop button at `now`: without an open contraction nothing is sent and nothing
     * happens; otherwise the open row is updated with the end time `now` and the slider's
     * level, and a successful update closes it, zeroes the stopwatch, resets the slider to
     * 5 and takes the refreshed history when one arrives; a failed update changes nothing.
     */
    method Stop(now: int, ok: bool, refreshed: Option<seq<ContractionRow>>) returns (update: Option<StopUpdate>)
      requires Valid()
      modifies this`activeContraction, this`seconds, this`intensity, this`history
      ensures Valid()
      ensures update.Some? <==> old(activeContraction).Some?
      ensures update.Some? ==> update.value == StopUpdate(old(activeContraction).value.id, now, old(intensity))
      ensures old(activeContraction).Some? && ok ==>
        activeContraction == None && seconds == 0 && intensity == DefaultIntensity
        && history == (if refreshed.Some? then refreshed.value else old(history))
      ensures old(activeContraction).None? || !ok ==>
        activeContraction == old(activeContraction) && seconds == old(seconds)
        && intensity == old(intensity) && history == old(history)
    {
      update := None;
      if activeContraction.None? {
        return;
      }
      update := Some(StopUpdate(activeContraction.value.id, now, intensity));
      if ok {
        activeContraction := None;
        seconds := 0;
        intensity := DefaultIntensity;
        if refreshed.Some? {
          history := refreshed.value;
        }
      }
    }

    /**
     * The water-break (`isWater`) or mucus-plug button at `now`. Without a pregnancy id
     * nothing happens. Otherwise the chosen time moves as `NextMark` says, the other one
     * is never touched, and a new report that succeeded notifies the doula when there is
     * one.
     */
    method ToggleMedicalEvent(isWater: bool, confirmed: bool, ok: bool, now: int)
      requires Valid()
      modifies this`waterBreakTime, this`mucusPlugTime, this`sent
      ensures Valid()
      ensures !Truthy(pregnancyId) ==>
        waterBreakTime == old(waterBreakTime) && mucusPlugTime == old(mucusPlugTime)
        && sent == old(sent)
      ensures Truthy(pregnancyId) && isWater ==>
        waterBreakTime == NextMark(old(waterBreakTime), confirmed, ok, now)
        && mucusPlugTime == old(mucusPlugTime)
      ensures Truthy(pregnancyId) && !isWater ==>
        mucusPlugTime == NextMark(old(mucusPlugTime), confirmed, ok, now)
        && waterBreakTime == old(waterBreakTime)
      ensures var current := if isWater then old(waterBreakTime) else old(mucusPlugTime);
        sent == if Truthy(pregnancyId) && current.None? && ok && Truthy(doulaId)
                then old(sent) + [Notice(doulaId.value, pregnancyId.value, isWater)]
                else old(sent)
    {
      if !Truthy(pregnancyId) {
        return;
      }
      var current := if isWater then waterBreakTime else mucusPlugTime;
      if current.Some? {
        if !confirmed {
          return;
        }
        if ok {
          if isWater {
            waterBreakTime := None;
          } else {
            mucusPlugTime := None;
          }
        }
        return;
      }
      if ok {
        if isWater {
          waterBreakTime := Some(now);
        } else {
          mucusPlugTime := Some(now);
        }
        if Truthy(doulaId) {
          sent := sent + [Notice(doulaId.value, pregnancyId.value, isWater)];
        }
      }
    }
  }
}
