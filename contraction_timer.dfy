/**
 * The dashboard's self-contained contraction timer: a running stopwatch, a newest-first
 * history of the last ten stopped contractions, and the averages shown beneath it.
 * Instants are integer milliseconds supplied by the caller.
 */
module ContractionTimer {
  import opened Wrappers
  import opened JsMath
  import opened Seqs

  /** How many stopped contractions the history keeps. */
  const HistoryLimit: nat := 10

  /**
   * A stopped contraction: its length in seconds, the whole seconds since the previous
   * stop (0 for the first stop after a reset) and the instant it stopped.
   */
  datatype Contraction = Contraction(id: int, duration: int, interval: int, timestamp: int)

  /** Whole seconds since the previous stop, floored; 0 when there was none. */
  function Interval(last: Option<int>, now: int): (r: int)
    ensures last.None? ==> r == 0
    ensures last.Some? ==> 1000 * r <= now - last.value < 1000 * r + 1000
  {
    match last
    case None => 0
    case Some(t) => FloorDiv(now - t, 1000)
  }

  /** The history after a stop: the new record, then at most nine of the older ones. */
  function Push(history: seq<Contraction>, c: Contraction): (r: seq<Contraction>)
    ensures |r| == Min(|history| + 1, HistoryLimit)
    ensures r[0] == c
    ensures forall i :: 1 <= i < |r| ==> r[i] == history[i - 1]
  {
    [c] + history[..Min(|history|, HistoryLimit - 1)]
  }

  /** The history left by stopping `stops` in order, starting from an empty one. */
  function History(stops: seq<Contraction>): seq<Contraction> {
    if stops == [] then [] else Push(History(stops[..|stops| - 1]), stops[|stops| - 1])
  }

  /** The history holds exactly the last ten stops, newest first. */
  lemma {:induction false} HistoryIsNewestTen(stops: seq<Contraction>)
    ensures |History(stops)| == Min(|stops|, HistoryLimit)
    ensures forall i :: 0 <= i < |History(stops)| ==> History(stops)[i] == stops[|stops| - 1 - i]
  {
    if stops != [] {
      HistoryIsNewestTen(stops[..|stops| - 1]);
    }
  }

  /** The durations of a history, in order. */
  function Durations(cs: seq<Contraction>): (r: seq<int>)
    ensures |r| == |cs| && forall i :: 0 <= i < |cs| ==> r[i] == cs[i].duration
  {
    seq(|cs|, i requires 0 <= i < |cs| => cs[i].duration)
  }

  /** The intervals of a history, in order. */
  function Intervals(cs: seq<Contraction>): (r: seq<int>)
    ensures |r| == |cs| && forall i :: 0 <= i < |cs| ==> r[i] == cs[i].interval
  {
    seq(|cs|, i requires 0 <= i < |cs| => cs[i].interval)
  }

  predicate HasInterval(c: Contraction) {
    c.interval > 0
  }

  /** The mean duration rounded to whole seconds, or 0 for an empty history. */
  function AvgDuration(cs: seq<Contraction>): (r: int)
    ensures cs == [] ==> r == 0
    ensures cs != [] ==>
      2 * |cs| * r - |cs| <= 2 * Sum(Durations(cs)) < 2 * |cs| * r + |cs|
  {
    if cs == [] then 0 else RoundDiv(Sum(Durations(cs)), |cs|)
  }

  /**
   * The mean of the positive intervals rounded to whole seconds, or 0 when there is none;
   * a stop without a previous stop does not pull the average down.
   */
  function AvgInterval(cs: seq<Contraction>): (r: int)
    ensures var pos := Filter(cs, HasInterval);
      (pos == [] ==> r == 0)
      && (pos != [] ==>
            r >= 1 && 2 * |pos| * r - |pos| <= 2 * Sum(Intervals(pos)) < 2 * |pos| * r + |pos|)
  {
    var pos := Filter(cs, HasInterval);
    if pos == [] then 0
    else
      var xs := Intervals(pos);
      SumAtLeast(xs, 1);
      RoundDivAtLeast(Sum(xs), |pos|, 1);
      RoundDiv(Sum(xs), |pos|)
  }

  /** When every duration lies between `lo` and `hi`, so does their rounded mean. */
  lemma AvgDurationBounds(cs: seq<Contraction>, lo: int, hi: int)
    requires cs != []
    requires forall i :: 0 <= i < |cs| ==> lo <= cs[i].duration <= hi
    ensures lo <= AvgDuration(cs) <= hi
  {
    SumBounds(Durations(cs), lo, hi);
    RoundDivBounds(Sum(Durations(cs)), |cs|, lo, hi);
  }

  /** A record without a positive interval, old or new, does not change the interval average. */
  lemma AvgIntervalIgnoresFirstStops(cs: seq<Contraction>, c: Contraction)
    requires c.interval <= 0
    ensures AvgInterval([c] + cs) == AvgInterval(cs)
    ensures AvgInterval(cs + [c]) == AvgInterval(cs)
  {
    FilterAppend([c], cs, HasInterval);
    FilterAppend(cs, [c], HasInterval);
    assert Filter([c], HasInterval) == [];
    assert Filter(cs, HasInterval) + [] == Filter(cs, HasInterval);
    assert [] + Filter(cs, HasInterval) == Filter(cs, HasInterval);
  }

  /** The timer's state: the stopwatch, its history and the instant of the previous stop. */
  class Timer {
    var isRunning: bool
    var seconds: int
    var contractions: seq<Contraction>
    var lastContraction: Option<int>

    /**
     * The seconds never go negative, the history never exceeds ten entries, there is a
     * previous stop exactly when the history is non-empty, and it is the newest entry's.
     */
    ghost predicate Valid()
      reads this
    {
      seconds >= 0 && |contractions| <= HistoryLimit
      && (lastContraction.None? <==> contractions == [])
      && (lastContraction.Some? ==> contractions[0].timestamp == lastContraction.value)
    }

    constructor ()
      ensures Valid()
      ensures !isRunning && seconds == 0 && contractions == [] && lastContraction == None
    {
      isRunning := false;
      seconds := 0;
      contractions := [];
      lastContraction := None;
    }

    /** One second of the interval timer: it only counts while running. */
    method Tick()
      requires Valid()
      modifies this
      ensures Valid()
      ensures seconds == if old(isRunning) then old(seconds) + 1 else old(seconds)
      ensures isRunning == old(isRunning) && contractions == old(contractions)
      ensures lastContraction == old(lastContraction)
    {
      if isRunning {
        seconds := seconds + 1;
      }
    }

    /**
     * The start/stop button at instant `now`. Stopping records the elapsed seconds as a
     * new newest entry, remembers `now` as the previous stop and zeroes the stopwatch;
     * starting records nothing. Either way the running flag flips.
     */
    method Toggle(now: int)
      requires Valid()
      modifies this
      ensures Valid()
      ensures isRunning == !old(isRunning)
      ensures old(isRunning) ==>
        contractions == Push(old(contractions),
          Contraction(now, old(seconds), Interval(old(lastContraction), now), now))
        && seconds == 0 && lastContraction == Some(now)
      ensures old(isRunning) && old(contractions) == [] ==> contractions[0].interval == 0
      ensures !old(isRunning) ==>
        seconds == old(seconds) && contractions == old(contractions)
        && lastContraction == old(lastContraction)
    {
      if isRunning {
        var interval := Interval(lastContraction, now);
        contractions := Push(contractions, Contraction(now, seconds, interval, now));
        lastContraction := Some(now);
        seconds := 0;
      }
      isRunning := !isRunning;
    }

    /** The reset button: stopped, zero seconds, no history and no previous stop. */
    method Reset()
      modifies this
      ensures Valid()
      ensures !isRunning && seconds == 0 && contractions == [] && lastContraction == None
    {
      isRunning := false;
      seconds := 0;
      contractions := [];
      lastContraction := None;
    }
  }
}
