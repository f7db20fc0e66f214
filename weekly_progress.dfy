/**
 * The weekly-progress card: the trimester of the current week and which of five fixed
 * milestones it has reached.
 */
module WeeklyProgress {
  /** `week <= 12 ? 1 : week <= 27 ? 2 : 3`. */
  function Trimester(week: int): (r: int)
    ensures 1 <= r <= 3
    ensures r == 1 <==> week <= 12
    ensures r == 3 <==> week > 27
  {
    if week <= 12 then 1 else if week <= 27 then 2 else 3
  }

  /** Later weeks never fall in an earlier trimester. */
  lemma TrimesterMonotone(w1: int, w2: int)
    requires w1 <= w2
    ensures Trimester(w1) <= Trimester(w2)
  {
  }

  /** The milestone weeks, in the order they are drawn. */
  const Milestones: seq<int> := [12, 20, 27, 37, 40]

  /** The milestones are listed in strictly increasing week order. */
  lemma MilestonesIncreasing()
    ensures forall i, j :: 0 <= i < j < |Milestones| ==> Milestones[i] < Milestones[j]
  {
  }

  /** A milestone is highlighted once the current week has reached it. */
  predicate Reached(week: int, i: int)
    requires 0 <= i < |Milestones|
  {
    week >= Milestones[i]
  }

  /** How many milestones are highlighted. */
  function ReachedCount(week: int): (n: nat)
    ensures n <= |Milestones|
    ensures forall i :: 0 <= i < |Milestones| ==> (Reached(week, i) <==> i < n)
  {
    ReachedUpTo(week, |Milestones|)
  }

  /** The number of the first `k` milestones that are reached, which are a prefix of them. */
  function ReachedUpTo(week: int, k: nat): (n: nat)
    requires k <= |Milestones|
    ensures n <= k
    ensures forall i :: 0 <= i < k ==> (Reached(week, i) <==> i < n)
  {
    MilestonesIncreasing();
    if k == 0 then 0
    else
      var n := ReachedUpTo(week, k - 1);
      if n == k - 1 && Reached(week, k - 1) then k
      else
        assert n < k - 1 ==> !Reached(week, n) && Milestones[n] < Milestones[k - 1];
        n
  }

  /** The highlighted milestones are exactly those whose week has come; at 40 all are lit. */
  lemma AllReachedAtTerm(week: int)
    ensures ReachedCount(week) == |Milestones| <==> week >= 40
    ensures ReachedCount(week) == 0 <==> week < 12
  {
    assert Reached(week, 4) <==> week >= 40;
    assert Reached(week, 0) <==> week >= 12;
  }

  /**
   * The trimester label and the lit milestones agree: the first trimester lights at most
   * the week-12 milestone, the second lights from it up to the week-27 one, and the third
   * has at least three lit.
   */
  lemma TrimesterMilestones(week: int)
    ensures Trimester(week) == 1 ==> ReachedCount(week) <= 1
    ensures Trimester(week) == 2 ==> 1 <= ReachedCount(week) <= 3
    ensures Trimester(week) == 3 ==> ReachedCount(week) >= 3
  {
    var n := ReachedCount(week);
    assert Reached(week, 0) <==> 0 < n;
    assert Reached(week, 1) <==> 1 < n;
    assert Reached(week, 2) <==> 2 < n;
    assert Reached(week, 3) <==> 3 < n;
  }
}
