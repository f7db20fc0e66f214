/**
 * The mother's contraction-timer page (earlier generation): start/stop of a stored
 * contraction with a doula notification on start, an intensity slider, and the recent
 * history with durations and intensity icons. Database calls become their results,
 * passed in as parameters.
 */
module SrcContractionTimerPage {
  import opened Wrappers
  import opened JsText
  import opened ContractionDisplay

  /** A `contraction` notification inserted for the doula when a contraction starts. */
  datatype Notice = Notice(doulaId: string)

  const DefaultIntensity: int := 5
  const MinIntensity: int := 1
  const MaxIntensity: int := 10

  /**
   * The activity icon is red for a stored intensity above 7, a missing one comparing as
   * below: the same levels the later history paints red.
   */
  predicate IconIsRed(intensity: Option<int>)
    ensures IconIsRed(intensity) <==> IntensityColour(intensity) == Red
  {
    intensity.Some? && intensity.value > 7
  }

  /** The intensity label: `-` for a missing or zero intensity, the number otherwise. */
  function IntensityLabel(intensity: Option<int>): (r: string)
    ensures r == "-" <==> intensity.None? || intensity.value == 0
    ensures intensity.Some? && intensity.value > 0 ==> r == NatToString(intensity.value)
  {
    if intensity.None? || intensity.value == 0 then "-" else IntToString(intensity.value)
  }

  /** The page's state. */
  class TimerPage {
    var activeContraction: Option<ContractionRow>
    var pregnancyId: Option<string>
    var doulaId: Option<string>
    var seconds: int
    var intensity: int
    var history: seq<ContractionRow>
    /** Notifications inserted for the doula, oldest first. */
    var sent: seq<Notice>

    /** The stopwatch reads 0 whenever no contraction is open; the slider stays in range. */
    ghost predicate Valid()
      reads this
    {
      (activeContraction.None? ==> seconds == 0) && MinIntensity <= intensity <= MaxIntensity
    }

    constructor ()
      ensures Valid()
      ensures activeContraction == None && pregnancyId == None && doulaId == None
      ensures seconds == 0 && intensity == DefaultIntensity && history == [] && sent == []
    {
      activeContraction := None;
      pregnancyId := None;
      doulaId := None;
      seconds := 0;
      intensity := DefaultIntensity;
      history := [];
      sent := [];
    }

    /**
     * The mount-time load: the active pregnancy (id and doula id) and, when the fetch
     * returns one, its history. This generation does not resume an open contraction.
     */
    method Load(preg: Option<(string, Option<string>)>, fetched: Option<seq<ContractionRow>>)
      requires Valid()
      modifies this`pregnancyId, this`doulaId, this`history
      ensures Valid()
      ensures preg.None? ==>
        pregnancyId == old(pregnancyId) && doulaId == old(doulaId) && history == old(history)
      ensures preg.Some? ==>
        pregnancyId == Some(preg.value.0) && doulaId == preg.value.1
        && history == (if fetched.Some? then fetched.value else old(history))
    {
      if preg.Some? {
        pregnancyId := Some(preg.value.0);
        doulaId := preg.value.1;
        if fetched.Some? {
          history := fetched.value;
        }
      }
    }

    /** One second of the interval timer, which runs only while a contraction is open. */
    method Tick()
      requires Valid()
      modifies this`seconds
      ensures Valid()
      ensures seconds == if activeContraction.Some? then old(seconds) + 1 else old(seconds)
    {
      if activeContraction.Some? {
        seconds := seconds + 1;
      }
    }

    /** The slider, whose range is 1 to 10. */
    method SetIntensity(v: int)
      requires Valid() && MinIntensity <= v <= MaxIntensity
      modifies this`intensity
      ensures Valid() && intensity == v
    {
      intensity := v;
    }

    /**
     * The start button at `now`: without a pregnancy id nothing is sent and nothing
     * happens; otherwise a row for the pregnancy starting at `now` is inserted, and a
     * successful insert opens the inserted row and, only when a doula is set, notifies
     * the doula.
     */
    method Start(now: int, inserted: Option<ContractionRow>) returns (insert: Option<StartInsert>)
      requires Valid()
      modifies this`activeContraction, this`sent
      ensures Valid()
      ensures insert.Some? <==> Truthy(pregnancyId)
      ensures insert.Some? ==> insert.value == StartInsert(pregnancyId.value, now)
      ensures activeContraction ==
        if Truthy(pregnancyId) && inserted.Some? then inserted else old(activeContraction)
      ensures sent ==
        if Truthy(pregnancyId) && inserted.Some? && Truthy(doulaId)
        then old(sent) + [Notice(doulaId.value)] else old(sent)
    {
      insert := None;
      if !Truthy(pregnancyId) {
        return;
      }
      insert := Some(StartInsert(pregnancyId.value, now));
      if inserted.Some? {
        activeContraction := inserted;
        if Truthy(doulaId) {
          sent := sent + [Notice(doulaId.value)];
        }
      }
    }

    /**
     * The stop button at `now`: without an open contraction nothing is sent and nothing
     * happens; otherwise the open row is updated with the end time `now` and the slider's
     * level, and a successful update closes it, zeroes the stopwatch, resets the slider to
     * 5 and takes the refreshed history when one arrives; a failed update changes nothing.
     */
    method Stop(now: int, ok: bool, refreshed: Option<seq<ContractionRow>>) returns (update: Option<StopUpdate>)
      requires Valid()
      modifies this`activeContraction, this`seconds, this`intensity, this`history
      ensures Valid()
      ensures update.Some? <==> old(activeContraction).Some?
      ensures update.Some? ==> update.value == StopUpdate(old(activeContraction).value.id, now, old(intensity))
      ensures old(activeContraction).Some? && ok ==>
        activeContraction == None && seconds == 0 && intensity == DefaultIntensity
        && history == (if refreshed.Some? then refreshed.value else old(history))
      ensures old(activeContraction).None? || !ok ==>
        activeContraction == old(activeContraction) && seconds == old(seconds)
        && intensity == old(intensity) && history == old(history)
    {
      update := None;
      if activeContraction.None? {
        return;
      }
      update := Some(StopUpdate(activeContraction.value.id, now, intensity));
      if ok {
        activeContraction := None;
        seconds := 0;
        intensity := DefaultIntensity;
        if refreshed.Some? {
          history := refreshed.value;
        }
      }
    }
  }
}
