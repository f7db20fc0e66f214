/**
 * The doula's live monitor (site generation): the open contraction with a live stopwatch,
 * driven by realtime insert and update events on the mother's contractions, the last
 * contractions with their frequency, and a summary of the last hour.
 */
module SiteLiveMonitor {
  import opened Wrappers
  import opened JsMath
  import opened Seqs
  import opened ContractionDisplay

  datatype EventType = Insert | Update | Delete

  /** A realtime change on the contractions table: its kind and the row after the change. */
  datatype Payload = Payload(eventType: EventType, newRow: ContractionRow)

  /** One hour in milliseconds. */
  const Hour: int := 60 * 60 * 1000

  /**
   * The open contraction after an event: an insert opens the inserted row, an update whose
   * row has an end time closes it, and every other event leaves it as it was.
   */
  function NextActive(active: Option<ContractionRow>, p: Payload): (r: Option<ContractionRow>)
    ensures p.eventType == Insert ==> r == Some(p.newRow)
    ensures p.eventType == Update && p.newRow.endTime.Some? ==> r == None
    ensures p.eventType != Insert && !(p.eventType == Update && p.newRow.endTime.Some?) ==>
      r == active
  {
    if p.eventType == Insert then Some(p.newRow)
    else if p.eventType == Update && p.newRow.endTime.Some? then None
    else active
  }

  /** An insert followed by the update that ends it leaves nothing open. */
  lemma InsertThenEnd(active: Option<ContractionRow>, row: ContractionRow, ended: int)
    ensures NextActive(NextActive(active, Payload(Insert, row)),
      Payload(Update, row.(endTime := Some(ended)))) == None
  {
  }

  /** The live stopwatch: whole seconds since the start, floored and never negative; 0 when idle. */
  function LiveSeconds(active: Option<ContractionRow>, now: int): (r: int)
    ensures r >= 0
    ensures active.None? ==> r == 0
    ensures active.Some? && now >= active.value.startTime ==>
      1000 * r <= now - active.value.startTime < 1000 * r + 1000
    ensures active.Some? && now < active.value.startTime ==> r == 0
  {
    match active
    case None => 0
    case Some(c) => Max(0, FloorDiv(now - c.startTime, 1000))
  }

  /** The contraction started after `since`. */
  predicate StartedAfter(since: int, c: ContractionRow) {
    c.startTime > since
  }

  /** Milliseconds from start to end, reading a missing end as the instant 0. */
  function DurationsMs(rows: seq<ContractionRow>): (r: seq<int>)
    ensures |r| == |rows|
    ensures forall i :: 0 <= i < |rows| ==> r[i] == rows[i].endTime.GetOr(0) - rows[i].startTime
  {
    seq(|rows|, i requires 0 <= i < |rows| => rows[i].endTime.GetOr(0) - rows[i].startTime)
  }

  /** The last-hour summary: how many contractions started and their mean length in seconds. */
  datatype Stats = Stats(count: nat, avgDuration: int)

  function LastHour(recent: seq<ContractionRow>, now: int): seq<ContractionRow> {
    Filter(recent, c => StartedAfter(now - Hour, c))
  }

  /**
   * `getStats`: nothing when fewer than two of the listed contractions started within the
   * hour before `now`; otherwise their number and their mean duration rounded to seconds.
   */
  function GetStats(recent: seq<ContractionRow>, now: int): (r: Option<Stats>)
    ensures var hour := LastHour(recent, now);
      (r.None? <==> |hour| < 2)
      && (r.Some? ==>
            r.value.count == |hour| && 2 <= r.value.count <= |recent|
            && 2 * 1000 * |hour| * r.value.avgDuration - 1000 * |hour|
               <= 2 * Sum(DurationsMs(hour))
               < 2 * 1000 * |hour| * r.value.avgDuration + 1000 * |hour|)
  {
    var hour := LastHour(recent, now);
    if |hour| < 2 then None
    else Some(Stats(|hour|, RoundDiv(Sum(DurationsMs(hour)), 1000 * |hour|)))
  }

  /** Every listed contraction is counted exactly when it started within the last hour. */
  lemma StatsCountsLastHour(recent: seq<ContractionRow>, now: int)
    requires forall i :: 0 <= i < |recent| ==> recent[i].startTime > now - Hour
    ensures |recent| >= 2 ==> GetStats(recent, now) == Some(Stats(|recent|,
      RoundDiv(Sum(DurationsMs(recent)), 1000 * |recent|)))
    ensures |recent| < 2 ==> GetStats(recent, now) == None
  {
    FilterKeepsAll(recent, c => StartedAfter(now - Hour, c));
  }

  /** When every counted contraction lasted between `lo` and `hi` seconds, so does the average. */
  lemma StatsAverageBounds(recent: seq<ContractionRow>, now: int, lo: int, hi: int)
    requires GetStats(recent, now).Some?
    requires var hour := LastHour(recent, now);
      forall i :: 0 <= i < |hour| ==>
        1000 * lo <= hour[i].endTime.GetOr(0) - hour[i].startTime <= 1000 * hi
    ensures lo <= GetStats(recent, now).value.avgDuration <= hi
  {
    var hour := LastHour(recent, now);
    var ms := DurationsMs(hour);
    assert GetStats(recent, now).value.avgDuration == RoundDiv(Sum(ms), 1000 * |ms|);
    MeanSecondsBounds(ms, lo, hi);
  }

  /** Durations of `lo` to `hi` whole seconds each have a rounded mean in seconds within the same bounds. */
  lemma MeanSecondsBounds(ms: seq<int>, lo: int, hi: int)
    requires |ms| > 0
    requires forall i :: 0 <= i < |ms| ==> 1000 * lo <= ms[i] <= 1000 * hi
    ensures lo <= RoundDiv(Sum(ms), 1000 * |ms|) <= hi
  {
    var n := |ms|;
    SumBounds(ms, 1000 * lo, 1000 * hi);
    assert n * (1000 * lo) == (1000 * n) * lo;
    assert n * (1000 * hi) == (1000 * n) * hi;
    RoundDivBounds(Sum(ms), 1000 * n, lo, hi);
  }

  /**
   * The frequency label is red for four rounded minutes or fewer, when it is shown at all:
   * exactly when the two starts are at least half a minute apart and the newer one began
   * less than four and a half minutes after the older one.
   */
  predicate FreqIsUrgent(rows: seq<ContractionRow>, i: nat)
    requires i < |rows|
    ensures FreqIsUrgent(rows, i) <==>
      i + 1 < |rows| && !(-30000 <= rows[i].startTime - rows[i + 1].startTime < 30000)
      && rows[i].startTime - rows[i + 1].startTime < 270000
  {
    FreqBadge(rows, i).Element? && FreqBadge(rows, i).n <= 4
  }

  /** The monitor's state. */
  class Monitor {
    var activeContraction: Option<ContractionRow>
    var recentContractions: seq<ContractionRow>
    var liveSeconds: int

    /** The stopwatch is never negative and reads 0 whenever nothing is open. */
    ghost predicate Valid()
      reads this
    {
      liveSeconds >= 0 && (activeContraction.None? ==> liveSeconds == 0)
    }

    constructor ()
      ensures Valid()
      ensures activeContraction == None && recentContractions == [] && liveSeconds == 0
    {
      activeContraction := None;
      recentContractions := [];
      liveSeconds := 0;
    }

    /** The initial load: an open contraction found at `now`, then the fetched history. */
    method Load(open: Option<ContractionRow>, fetched: Option<seq<ContractionRow>>, now: int)
      requires Valid()
      modifies this
      ensures Valid()
      ensures open.Some? ==>
        activeContraction == open && liveSeconds == LiveSeconds(open, now)
      ensures open.None? ==>
        activeContraction == old(activeContraction) && liveSeconds == old(liveSeconds)
      ensures recentContractions ==
        if fetched.Some? then fetched.value else old(recentContractions)
    {
      if open.Some? {
        activeContraction := open;
        liveSeconds := LiveSeconds(open, now);
      }
      if fetched.Some? {
        recentContractions := fetched.value;
      }
    }

    /** The stopwatch's one-second refresh at `now`, which runs only while a contraction is open. */
    method Tick(now: int)
      requires Valid()
      modifies this`liveSeconds
      ensures Valid()
      ensures liveSeconds == LiveSeconds(activeContraction, now)
    {
      liveSeconds := LiveSeconds(activeContraction, now);
    }

    /**
     * `handleRealtimeUpdate` at `now`: the open contraction moves as `NextActive` says and
     * the stopwatch follows it; a closing update takes the refreshed history when one
     * arrives.
     */
    method HandleRealtimeUpdate(p: Payload, refreshed: Option<seq<ContractionRow>>, now: int)
      requires Valid()
      modifies this
      ensures Valid()
      ensures activeContraction == NextActive(old(activeContraction), p)
      ensures p.eventType == Insert ==> liveSeconds == LiveSeconds(activeContraction, now)
      ensures p.eventType != Insert ==>
        liveSeconds == (if activeContraction.None? then 0 else old(liveSeconds))
      ensures recentContractions ==
        if p.eventType == Update && p.newRow.endTime.Some? && refreshed.Some?
        then refreshed.value else old(recentContractions)
    {
      if p.eventType == Insert {
        activeContraction := Some(p.newRow);
        liveSeconds := LiveSeconds(activeContraction, now);
      }
      if p.eventType == Update && p.newRow.endTime.Some? {
        activeContraction := None;
        liveSeconds := 0;
        if refreshed.Some? {
          recentContractions := refreshed.value;
        }
      }
    }
  }
}
