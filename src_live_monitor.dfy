/**
 * The doula's live monitor (earlier generation). Its realtime rule is the site
 * generation's (`SiteLiveMonitor.NextActive`); its stopwatch is written with a conditional
 * rather than `Math.max`, and it has no last-hour summary.
 */
module SrcLiveMonitor {
  import opened Wrappers
  import opened JsMath
  import opened ContractionDisplay
  import Site = SiteLiveMonitor

  /** The live stopwatch: whole seconds since the start when that is not negative, else 0. */
  function LiveSeconds(active: Option<ContractionRow>, now: int): (r: int)
    ensures r >= 0
    ensures active.None? ==> r == 0
    ensures active.Some? && now >= active.value.startTime ==>
      1000 * r <= now - active.value.startTime < 1000 * r + 1000
    ensures active.Some? && now < active.value.startTime ==> r == 0
  {
    match active
    case None => 0
    case Some(c) =>
      var diff := FloorDiv(now - c.startTime, 1000);
      if diff >= 0 then diff else 0
  }

  /** Both generations show the same stopwatch. */
  lemma LiveSecondsAgree(active: Option<ContractionRow>, now: int)
    ensures LiveSeconds(active, now) == Site.LiveSeconds(active, now)
  {
  }

  /** The monitor's state. */
  class Monitor {
    var activeContraction: Option<ContractionRow>
    var recentContractions: seq<ContractionRow>
    var liveSeconds: int

    /** The stopwatch is never negative and reads 0 whenever nothing is open. */
    ghost predicate Valid()
      reads this
    {
      liveSeconds >= 0 && (activeContraction.None? ==> liveSeconds == 0)
    }

    constructor ()
      ensures Valid()
      ensures activeContraction == None && recentContractions == [] && liveSeconds == 0
    {
      activeContraction := None;
      recentContractions := [];
      liveSeconds := 0;
    }

    /** The initial load: an open contraction found at `now`, then the fetched history. */
    method Load(open: Option<ContractionRow>, fetched: Option<seq<ContractionRow>>, now: int)
      requires Valid()
      modifies this
      ensures Valid()
      ensures open.Some? ==>
        activeContraction == open && liveSeconds == LiveSeconds(open, now)
      ensures open.None? ==>
        activeContraction == old(activeContraction) && liveSeconds == old(liveSeconds)
      ensures recentContractions ==
        if fetched.Some? then fetched.value else old(recentContractions)
    {
      if open.Some? {
        activeContraction := open;
        liveSeconds := LiveSeconds(open, now);
      }
      if fetched.Some? {
        recentContractions := fetched.value;
      }
    }

    /** The stopwatch's one-second refresh at `now`. */
    method Tick(now: int)
      requires Valid()
      modifies this`liveSeconds
      ensures Valid()
      ensures liveSeconds == LiveSeconds(activeContraction, now)
    {
      liveSeconds := LiveSeconds(activeContraction, now);
    }

    /**
     * `handleRealtimeUpdate` at `now`: an insert opens its row and restarts the stopwatch;
     * an update carrying an end time closes the open contraction, zeroes the stopwatch and
     * takes the refreshed history when one arrives; anything else changes nothing.
     */
    method HandleRealtimeUpdate(p: Site.Payload, refreshed: Option<seq<ContractionRow>>, now: int)
      requires Valid()
      modifies this
      ensures Valid()
      ensures activeContraction == Site.NextActive(old(activeContraction), p)
      ensures p.eventType == Site.Insert ==>
        liveSeconds == LiveSeconds(activeContraction, now)
      ensures p.eventType != Site.Insert ==>
        liveSeconds == (if activeContraction.None? then 0 else old(liveSeconds))
      ensures recentContractions ==
        if p.eventType == Site.Update && p.newRow.endTime.Some? && refreshed.Some?
        then refreshed.value else old(recentContractions)
    {
      if p.eventType == Site.Insert {
        activeContraction := Some(p.newRow);
        liveSeconds := LiveSeconds(activeContraction, now);
      }
      if p.eventType == Site.Update {
        if p.newRow.endTime.Some? {
          activeContraction := None;
          liveSeconds := 0;
          if refreshed.Some? {
            recentContractions := refreshed.value;
          }
        }
      }
    }
  }
}
