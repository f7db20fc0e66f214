/**
 * What the contraction screens derive from stored contraction rows: durations, the
 * minutes between contractions and the colour of the intensity badge. Instants are
 * integer milliseconds; a row without an end time is still running.
 */
module ContractionDisplay {
  import opened Wrappers
  import opened JsMath
  import Ui

  /** A stored contraction: when it started and ended, and the pain level the mother chose. */
  datatype ContractionRow = ContractionRow(
    id: string, startTime: int, endTime: Option<int>, intensity: Option<int>)

  /** The row a start button inserts into `contractions`: the pregnancy and the start time. */
  datatype StartInsert = StartInsert(pregnancyId: string, startTime: int)

  /** The update a stop button sends for the open row: its id, the end time and the chosen level. */
  datatype StopUpdate = StopUpdate(id: string, endTime: int, intensity: int)

  /** The open row as stored once the update is applied. */
  function Stopped(row: ContractionRow, u: StopUpdate): (r: ContractionRow)
    ensures r.id == row.id && r.startTime == row.startTime
    ensures r.endTime == Some(u.endTime) && r.intensity == Some(u.intensity)
  {
    row.(endTime := Some(u.endTime), intensity := Some(u.intensity))
  }

  /**
   * A contraction stopped at `now`, no earlier than it started, shows in the history the
   * elapsed seconds, rounded, and the colour of the level chosen on the slider.
   */
  lemma StoppedShows(row: ContractionRow, now: int, level: int)
    requires row.startTime <= now
    ensures var shown := Stopped(row, StopUpdate(row.id, now, level));
      HistoryDuration(shown) >= 0
      && 2000 * HistoryDuration(shown) - 1000 <= 2 * (now - row.startTime) < 2000 * HistoryDuration(shown) + 1000
      && IntensityColour(shown.intensity) == IntensityColour(Some(level))
  {
  }

  datatype Colour = Red | Orange | Green

  /** Red from 8 up, orange from 5 up, green below; a missing level compares as below. */
  function IntensityColour(intensity: Option<int>): (r: Colour)
    ensures r == Red <==> intensity.Some? && intensity.value >= 8
    ensures r == Orange <==> intensity.Some? && 5 <= intensity.value < 8
    ensures r == Green <==> intensity.None? || intensity.value < 5
  {
    match intensity
    case None => Green
    case Some(v) => if v >= 8 then Red else if v >= 5 then Orange else Green
  }

  /** Green, orange and red in rising order of alarm. */
  function Severity(c: Colour): nat {
    match c
    case Green => 0
    case Orange => 1
    case Red => 2
  }

  /** A stronger contraction never gets a calmer colour. */
  lemma IntensityColourMonotone(a: int, b: int)
    requires a <= b
    ensures Severity(IntensityColour(Some(a))) <= Severity(IntensityColour(Some(b)))
  {
  }

  /**
   * The duration shown in a mother's history: whole seconds from start to end, rounded,
   * or 0 while the contraction has no end time.
   */
  function HistoryDuration(row: ContractionRow): (r: int)
    ensures row.endTime.None? ==> r == 0
    ensures row.endTime.Some? ==>
      2000 * r - 1000 <= 2 * (row.endTime.value - row.startTime) < 2000 * r + 1000
  {
    match row.endTime
    case None => 0
    case Some(e) => RoundDiv(e - row.startTime, 1000)
  }

  /**
   * The duration shown on the doula's monitor: the same rounding, but a missing end time
   * is read as the instant 0, as `new Date(null)` does.
   */
  function MonitorDuration(row: ContractionRow): (r: int)
    ensures 2000 * r - 1000 <= 2 * (row.endTime.GetOr(0) - row.startTime) < 2000 * r + 1000
  {
    RoundDiv(row.endTime.GetOr(0) - row.startTime, 1000)
  }

  /** On a finished contraction both screens show the same duration, and it is never negative. */
  lemma DurationsAgree(row: ContractionRow)
    requires row.endTime.Some? && row.endTime.value >= row.startTime
    ensures MonitorDuration(row) == HistoryDuration(row) >= 0
  {
  }

  /**
   * The monitor's "every n minutes" figure for entry `i` of a newest-first list: the
   * rounded minutes from the start of the next older entry to the start of this one, and
   * nothing for the oldest entry.
   */
  function FreqMinutes(rows: seq<ContractionRow>, i: nat): (r: Option<int>)
    requires i < |rows|
    ensures r.None? <==> i == |rows| - 1
    ensures r.Some? ==>
      2 * 60000 * r.value - 60000 <= 2 * (rows[i].startTime - rows[i + 1].startTime)
      < 2 * 60000 * r.value + 60000
  {
    if i + 1 < |rows| then Some(RoundDiv(rows[i].startTime - rows[i + 1].startTime, 60000))
    else None
  }

  /**
   * `freqMin && <badge/>`: nothing for the oldest entry, a bare `0` when the two starts
   * are less than half a minute apart, and otherwise the badge with the minutes.
   */
  function FreqBadge(rows: seq<ContractionRow>, i: nat): (r: Ui.Guarded)
    requires i < |rows|
    ensures r.Omitted? <==> i == |rows| - 1
    ensures r.ZeroText? <==> i + 1 < |rows| && -30000 <= rows[i].startTime - rows[i + 1].startTime < 30000
    ensures r.Element? ==> r.n == FreqMinutes(rows, i).value && r.n != 0
  {
    if i + 1 < |rows| then
      RoundsToZero(rows[i].startTime - rows[i + 1].startTime, FreqMinutes(rows, i).value);
      Ui.GuardedNumber(FreqMinutes(rows, i))
    else
      Ui.Omitted
  }

  /** A gap rounds to zero minutes exactly when it is within half a minute either way. */
  lemma RoundsToZero(gap: int, m: int)
    requires 2 * 60000 * m - 60000 <= 2 * gap < 2 * 60000 * m + 60000
    ensures m == 0 <==> -30000 <= gap < 30000
  {
  }

  /** The list is ordered newest first by start time. */
  predicate NewestFirst(rows: seq<ContractionRow>) {
    forall i, j :: 0 <= i < j < |rows| ==> rows[j].startTime <= rows[i].startTime
  }

  /** In a newest-first list no frequency figure is negative. */
  lemma FreqMinutesNonNegative(rows: seq<ContractionRow>, i: nat)
    requires i < |rows| && NewestFirst(rows)
    ensures FreqMinutes(rows, i).Some? ==> FreqMinutes(rows, i).value >= 0
  {
    if i + 1 < |rows| {
      RoundDivBounds(rows[i].startTime - rows[i + 1].startTime, 60000, 0,
        rows[i].startTime - rows[i + 1].startTime);
    }
  }
}
