/**
 * The public doula explorer: every change of the search term, area or sort order rebuilds
 * the shown list from the fetched doulas by filtering a copy and sorting it in place.
 */
module DoulaExplorer {
  import opened Wrappers
  import opened JsText
  import opened Seqs
  import opened DoulaCard

  /** The lowercased term occurs in the lowercased text. */
  predicate ContainsLower(text: string, lower: string) {
    Contains(ToLower(text), lower)
  }

  /** Some specialty contains the lowercased term. */
  predicate SomeSpecialty(specialties: seq<string>, lower: string) {
    exists k :: 0 <= k < |specialties| && ContainsLower(specialties[k], lower)
  }

  /** The search: the lowercased term occurs in the name, the biography or a specialty. */
  predicate MatchesSearch(d: Doula, term: string) {
    var lower := ToLower(term);
    || ContainsLower(d.fullName, lower)
    || (d.bio.Some? && ContainsLower(d.bio.value, lower))
    || (d.specialties.Some? && SomeSpecialty(d.specialties.value, lower))
  }

  /** The area filter: the doula's service areas include the area. */
  predicate ServesArea(d: Doula, area: string) {
    d.serviceAreas.Some? && area in d.serviceAreas.value
  }

  /** Whether a doula passes both filters; an empty term and the area `all` filter nothing. */
  predicate Kept(d: Doula, term: string, area: string) {
    (term == [] || MatchesSearch(d, term)) && (area == "all" || ServesArea(d, area))
  }

  /** The doulas that pass the filters, in fetched order. */
  function FilterDoulas(doulas: seq<Doula>, term: string, area: string): (r: seq<Doula>)
    ensures SubsequenceOf(r, doulas)
    ensures forall i :: 0 <= i < |r| ==> Kept(r[i], term, area)
    ensures forall i :: 0 <= i < |doulas| && Kept(doulas[i], term, area) ==> doulas[i] in r
  {
    var keep := (d: Doula) => Kept(d, term, area);
    FilterSubsequence(doulas, keep);
    Filter(doulas, keep)
  }

  /** With no search term and every area, all fetched doulas are kept. */
  lemma NoFilterKeepsAll(doulas: seq<Doula>)
    ensures FilterDoulas(doulas, "", "all") == doulas
  {
    FilterKeepsAll(doulas, (d: Doula) => Kept(d, "", "all"));
  }

  /** A doula whose name contains the term, in any case, is found by the search. */
  lemma NameMatchFound(d: Doula, term: string)
    requires ContainsLower(d.fullName, ToLower(term))
    ensures Kept(d, term, "all")
  {
  }

  /** `years_experience || 0`. */
  function YearsOr0(d: Doula): int {
    if d.yearsExperience.Some? then d.yearsExperience.value else 0
  }

  /** `le` orders every pair and is transitive. */
  ghost predicate TotalPreorder(le: (Doula, Doula) -> bool) {
    && (forall x, y :: le(x, y) || le(y, x))
    && (forall x, y, z :: le(x, y) && le(y, z) ==> le(x, z))
  }

  predicate SortedBy(s: seq<Doula>, le: (Doula, Doula) -> bool) {
    forall p, q :: 0 <= p < q < |s| ==> le(s[p], s[q])
  }

  /**
   * Stable insertion of `x` at the end of `s`: it moves left past the elements greater
   * than it and stops after the last one that is not.
   */
  function Insert(s: seq<Doula>, x: Doula, le: (Doula, Doula) -> bool): seq<Doula> {
    if s == [] || le(s[|s| - 1], x) then s + [x]
    else Insert(s[..|s| - 1], x, le) + [s[|s| - 1]]
  }

  /** The list sorted by inserting its elements one after the other, first to last. */
  function InsertionSort(s: seq<Doula>, le: (Doula, Doula) -> bool): seq<Doula> {
    if s == [] then [] else Insert(InsertionSort(s[..|s| - 1], le), s[|s| - 1], le)
  }

  /** `x` lands after a prefix whose last element is not greater, and before elements that are greater. */
  lemma {:induction false} InsertShape(s: seq<Doula>, x: Doula, le: (Doula, Doula) -> bool) returns (m: nat)
    ensures m <= |s| && Insert(s, x, le) == s[..m] + [x] + s[m..]
    ensures m > 0 ==> le(s[m - 1], x)
    ensures forall k :: m <= k < |s| ==> !le(s[k], x)
  {
    if s == [] || le(s[|s| - 1], x) {
      m := |s|;
      assert s[..m] == s && s[m..] == [];
    } else {
      var init := s[..|s| - 1];
      m := InsertShape(init, x, le);
      assert init[..m] == s[..m];
      assert init[m..] + [s[|s| - 1]] == s[m..];
    }
  }

  /** Inserting into a sorted list keeps it sorted. */
  lemma InsertSorted(s: seq<Doula>, x: Doula, le: (Doula, Doula) -> bool)
    requires TotalPreorder(le) && SortedBy(s, le)
    ensures SortedBy(Insert(s, x, le), le)
  {
    var m := InsertShape(s, x, le);
    var r := Insert(s, x, le);
    forall p, q | 0 <= p < q < |r| ensures le(r[p], r[q]) {
      if q < m || p > m {
        assert r[p] == s[if p < m then p else p - 1] && r[q] == s[if q < m then q else q - 1];
      } else if p == m {
        assert !le(s[q - 1], x);
      } else if q == m {
        assert le(s[p], s[m - 1]);
      } else {
        assert r[p] == s[p] && r[q] == s[q - 1];
      }
    }
  }

  /** The insertion sort of any list is sorted under a total preorder. */
  lemma {:induction false} InsertionSortSorted(s: seq<Doula>, le: (Doula, Doula) -> bool)
    requires TotalPreorder(le)
    ensures SortedBy(InsertionSort(s, le), le)
  {
    if s != [] {
      InsertionSortSorted(s[..|s| - 1], le);
      InsertSorted(InsertionSort(s[..|s| - 1], le), s[|s| - 1], le);
    }
  }

  /** The insertion sort reorders the list and neither loses nor adds an element. */
  lemma {:induction false} InsertionSortPermutes(s: seq<Doula>, le: (Doula, Doula) -> bool)
    ensures multiset(InsertionSort(s, le)) == multiset(s)
  {
    if s != [] {
      var init, last := s[..|s| - 1], s[|s| - 1];
      InsertionSortPermutes(init, le);
      var sorted := InsertionSort(init, le);
      var m := InsertShape(sorted, last, le);
      PlacedMultiset(sorted, last, m);
      assert InsertionSort(s, le) == Insert(sorted, last, le);
      MultisetSnoc(s);
    }
  }

  /** A list's elements are those before its last one, and the last one. */
  lemma MultisetSnoc(s: seq<Doula>)
    requires s != []
    ensures multiset(s) == multiset(s[..|s| - 1]) + multiset{s[|s| - 1]}
  {
    assert s == s[..|s| - 1] + [s[|s| - 1]];
  }

  /** Placing `x` anywhere in a list adds it to the list's elements. */
  lemma PlacedMultiset(s: seq<Doula>, x: Doula, m: nat)
    requires m <= |s|
    ensures multiset(s[..m] + [x] + s[m..]) == multiset(s) + multiset{x}
  {
    assert s == s[..m] + s[m..];
  }

  /** The doulas the order cannot tell apart from `k`. */
  function EquivalentTo(le: (Doula, Doula) -> bool, k: Doula): Doula -> bool {
    (x: Doula) => le(x, k) && le(k, x)
  }

  /** Inserting `x` keeps the order of every class of equivalent doulas, `x` joining its own last. */
  lemma InsertStable(s: seq<Doula>, x: Doula, le: (Doula, Doula) -> bool, k: Doula)
    requires ClassOrdered(le, k)
    ensures Filter(Insert(s, x, le), EquivalentTo(le, k)) == Filter(s + [x], EquivalentTo(le, k))
  {
    var m := InsertShape(s, x, le);
    if EquivalentTo(le, k)(x) {
      GreaterOutsideClass(s[m..], x, le, k);
    }
    PlacedStable(s, x, m, EquivalentTo(le, k));
  }

  /** Placing `x` before doulas outside its class, rather than at the end, keeps the order within every class. */
  lemma PlacedStable(s: seq<Doula>, x: Doula, m: nat, e: Doula -> bool)
    requires m <= |s| && (e(x) ==> Filter(s[m..], e) == [])
    ensures Filter(s[..m] + [x] + s[m..], e) == Filter(s + [x], e)
  {
    assert s == s[..m] + s[m..];
    ClassOrderKept(s[..m], x, s[m..], e);
  }

  /** Moving `x` before doulas outside its class keeps the order within every class. */
  lemma ClassOrderKept(pre: seq<Doula>, x: Doula, suf: seq<Doula>, e: Doula -> bool)
    requires e(x) ==> Filter(suf, e) == []
    ensures Filter((pre + [x]) + suf, e) == Filter((pre + suf) + [x], e)
  {
    FilterThree(pre, x, suf, e);
    var a, b, c := Filter(pre, e), Filter(suf, e), Filter([x], e);
    if e(x) {
      assert b == [];
      EmptyRight(a + c);
      EmptyRight(a);
    } else {
      FilterKeepsNone([x], e);
      assert c == [];
      EmptyRight(a + b);
      EmptyRight(a);
    }
  }

  lemma EmptyRight(s: seq<Doula>)
    ensures s + [] == s
  {
  }

  /** A filter of a list with `x` placed before or after `suf`, piece by piece. */
  lemma FilterThree(pre: seq<Doula>, x: Doula, suf: seq<Doula>, e: Doula -> bool)
    ensures Filter((pre + [x]) + suf, e) == (Filter(pre, e) + Filter([x], e)) + Filter(suf, e)
    ensures Filter((pre + suf) + [x], e) == (Filter(pre, e) + Filter(suf, e)) + Filter([x], e)
  {
    FilterAppend(pre + [x], suf, e);
    FilterAppend(pre, [x], e);
    FilterAppend(pre + suf, [x], e);
    FilterAppend(pre, suf, e);
  }

  /** Doulas greater than `x` are not in `x`'s class. */
  lemma GreaterOutsideClass(suf: seq<Doula>, x: Doula, le: (Doula, Doula) -> bool, k: Doula)
    requires ClassOrdered(le, k) && EquivalentTo(le, k)(x)
    requires forall i :: 0 <= i < |suf| ==> !le(suf[i], x)
    ensures Filter(suf, EquivalentTo(le, k)) == []
  {
    var e := EquivalentTo(le, k);
    forall i | 0 <= i < |suf| ensures !e(suf[i]) {
      assert !le(suf[i], x);
    }
    FilterKeepsNone(suf, e);
  }

  /** Any two doulas of `k`'s class are ordered both ways. */
  ghost predicate ClassOrdered(le: (Doula, Doula) -> bool, k: Doula) {
    forall y, x :: EquivalentTo(le, k)(y) && EquivalentTo(le, k)(x) ==> le(y, x)
  }

  /** Under a total preorder every class is ordered both ways. */
  lemma PreorderClassOrdered(le: (Doula, Doula) -> bool, k: Doula)
    requires TotalPreorder(le)
    ensures ClassOrdered(le, k)
  {
  }

  /**
   * The insertion sort is stable: the doulas of every class of equivalent ones appear in
   * the same relative order as in the input.
   */
  lemma {:induction false} InsertionSortStable(s: seq<Doula>, le: (Doula, Doula) -> bool, k: Doula)
    requires TotalPreorder(le)
    ensures Filter(InsertionSort(s, le), EquivalentTo(le, k)) == Filter(s, EquivalentTo(le, k))
  {
    if s != [] {
      var e := EquivalentTo(le, k);
      var init := s[..|s| - 1];
      var sorted := InsertionSort(init, le);
      InsertionSortStable(init, le, k);
      PreorderClassOrdered(le, k);
      InsertStable(sorted, s[|s| - 1], le, k);
      FilterAppend(sorted, [s[|s| - 1]], e);
      FilterAppend(init, [s[|s| - 1]], e);
      assert s == init + [s[|s| - 1]];
    }
  }

  /** `result.sort(compare)`: an in-place insertion sort, the same list as `InsertionSort`. */
  method SortInPlace(a: array<Doula>, le: (Doula, Doula) -> bool)
    modifies a
    ensures a[..] == InsertionSort(old(a[..]), le)
  {
    ghost var start := a[..];
    var i := 0;
    while i < a.Length
      invariant 0 <= i <= a.Length
      invariant a[..i] == InsertionSort(start[..i], le)
      invariant a[i..] == start[i..]
    {
      InsertLast(a, i, le);
      assert start[..i + 1][..i] == start[..i];
      i := i + 1;
    }
    assert a[..] == a[..i] && start[..i] == start;
  }

  /** Moves `a[i]` left past the greater elements before it, as `Insert` does. */
  method InsertLast(a: array<Doula>, i: nat, le: (Doula, Doula) -> bool)
    requires i < a.Length
    modifies a
    ensures a[..i + 1] == Insert(old(a[..i]), old(a[i]), le)
    ensures a[i + 1..] == old(a[i + 1..])
  {
    ghost var start := a[..];
    var x := a[i];
    var j := i;
    while j > 0 && !le(a[j - 1], x)
      invariant 0 <= j <= i && a[j] == x
      invariant forall k :: 0 <= k < j ==> a[k] == start[k]
      invariant forall k :: j < k <= i ==> a[k] == start[k - 1]
      invariant forall k :: i < k < a.Length ==> a[k] == start[k]
      invariant forall k :: j <= k < i ==> !le(start[k], x)
    {
      a[j - 1], a[j] := x, a[j - 1];
      j := j - 1;
    }
    Landed(a[..], start, i, j, x, le);
  }

  /** The array after the loop of `InsertLast` holds the insertion of `x` into the prefix before `i`. */
  lemma Landed(b: seq<Doula>, start: seq<Doula>, i: nat, j: nat, x: Doula, le: (Doula, Doula) -> bool)
    requires j <= i < |b| == |start| && b[j] == x && start[i] == x
    requires j == 0 || le(start[j - 1], x)
    requires forall k :: 0 <= k < j ==> b[k] == start[k]
    requires forall k :: j < k <= i ==> b[k] == start[k - 1]
    requires forall k :: i < k < |b| ==> b[k] == start[k]
    requires forall k :: j <= k < i ==> !le(start[k], x)
    ensures b[..i + 1] == Insert(start[..i], x, le)
    ensures b[i + 1..] == start[i + 1..]
  {
    InsertLandsAt(start[..i], x, le, j);
    Reassembled(b, start, j, i, x);
    assert start[..i][..j] == start[..j] && start[..i][j..] == start[j..i];
  }

  /** `x` lands after a prefix that ends in an element not greater than it, all later ones being greater. */
  lemma {:induction false} InsertLandsAt(t: seq<Doula>, x: Doula, le: (Doula, Doula) -> bool, j: nat)
    requires j <= |t| && (j == 0 || le(t[j - 1], x))
    requires forall k :: j <= k < |t| ==> !le(t[k], x)
    ensures Insert(t, x, le) == t[..j] + [x] + t[j..]
    decreases |t|
  {
    if j == |t| {
      assert t[..j] == t && t[j..] == [];
    } else {
      var init := t[..|t| - 1];
      assert !le(t[|t| - 1], x);
      InsertLandsAt(init, x, le, j);
      assert init[..j] == t[..j];
      assert init[j..] + [t[|t| - 1]] == t[j..];
    }
  }

  /** The array after the loop: the untouched prefix, `x`, then the shifted elements. */
  lemma Reassembled(b: seq<Doula>, start: seq<Doula>, j: nat, i: nat, x: Doula)
    requires j <= i < |b| && i <= |start| && b[j] == x
    requires forall k :: 0 <= k < j ==> b[k] == start[k]
    requires forall k :: j < k <= i ==> b[k] == start[k - 1]
    ensures b[..i + 1] == start[..j] + [x] + start[j..i]
  {
    var r := start[..j] + [x] + start[j..i];
    forall k | 0 <= k <= i ensures b[k] == r[k] {
      if k > j {
        assert r[k] == start[j..i][k - j - 1];
      }
    }
  }



  /** `[...s].sort(compare)`: the insertion sort of `s`, made by sorting an array copy in place. */
  method SortedCopy(s: seq<Doula>, le: (Doula, Doula) -> bool) returns (r: seq<Doula>)
    ensures r == InsertionSort(s, le)
  {
    var a := new Doula[|s|](i requires 0 <= i < |s| => s[i]);
    assert a[..] == s;
    SortInPlace(a, le);
    r := a[..];
  }

  /** Descending experience, a missing value counted as 0. */
  function ByExperience(): (le: (Doula, Doula) -> bool)
    ensures forall x, y :: le(x, y) <==> YearsOr0(x) >= YearsOr0(y)
  {
    (x: Doula, y: Doula) => YearsOr0(x) >= YearsOr0(y)
  }

  /** Ascending name under a locale comparison that returns a negative, zero or positive number. */
  function ByName(collate: (string, string) -> int): (le: (Doula, Doula) -> bool)
    ensures forall x, y :: le(x, y) <==> collate(x.fullName, y.fullName) <= 0
  {
    (x: Doula, y: Doula) => collate(x.fullName, y.fullName) <= 0
  }

  /** The random shuffle, as an order on random keys drawn for the doulas. */
  function ByRank(rank: Doula -> int): (le: (Doula, Doula) -> bool)
    ensures forall x, y :: le(x, y) <==> rank(x) <= rank(y)
  {
    (x: Doula, y: Doula) => rank(x) <= rank(y)
  }

  /** A comparison that orders any two strings one way or the other, transitively. */
  ghost predicate Collation(collate: (string, string) -> int) {
    && (forall s, t :: collate(s, t) <= 0 || collate(t, s) <= 0)
    && (forall s, t, u :: collate(s, t) <= 0 && collate(t, u) <= 0 ==> collate(s, u) <= 0)
  }

  lemma ByExperienceTotal()
    ensures TotalPreorder(ByExperience())
  {
  }

  lemma ByNameTotal(collate: (string, string) -> int)
    requires Collation(collate)
    ensures TotalPreorder(ByName(collate))
  {
    var le := ByName(collate);
    forall x, y, z | le(x, y) && le(y, z) ensures le(x, z) {
      assert collate(x.fullName, y.fullName) <= 0 && collate(y.fullName, z.fullName) <= 0;
    }
  }

  lemma ByRankTotal(rank: Doula -> int)
    ensures TotalPreorder(ByRank(rank))
  {
  }

  /** The order the sort select chooses: experience, name, or the random keys otherwise. */
  function Order(sortBy: string, collate: (string, string) -> int, rank: Doula -> int): (Doula, Doula) -> bool {
    if sortBy == "experience" then ByExperience()
    else if sortBy == "name" then ByName(collate)
    else ByRank(rank)
  }

  lemma OrderTotal(sortBy: string, collate: (string, string) -> int, rank: Doula -> int)
    requires Collation(collate)
    ensures TotalPreorder(Order(sortBy, collate, rank))
  {
    if sortBy == "experience" {
      ByExperienceTotal();
    } else if sortBy == "name" {
      ByNameTotal(collate);
    } else {
      ByRankTotal(rank);
    }
  }

  /** Sorted by experience means the years never increase along the list. */
  lemma ExperienceSortedDescending(s: seq<Doula>)
    requires SortedBy(s, ByExperience())
    ensures forall p, q :: 0 <= p < q < |s| ==> YearsOr0(s[p]) >= YearsOr0(s[q])
  {
    forall p, q | 0 <= p < q < |s| ensures YearsOr0(s[p]) >= YearsOr0(s[q]) {
      assert ByExperience()(s[p], s[q]);
    }
  }

  /** The explorer's state. */
  class ExplorerPage {
    var doulas: seq<Doula>
    var filteredDoulas: seq<Doula>
    var searchTerm: string
    var areaFilter: string
    var sortBy: string

    constructor()
      ensures doulas == [] && filteredDoulas == [] && searchTerm == [] && areaFilter == "all" && sortBy == "random"
    {
      doulas := [];
      filteredDoulas := [];
      searchTerm := [];
      areaFilter := "all";
      sortBy := "random";
    }

    /** `fetchDoulas`: both lists become the fetched public doulas. */
    method FetchDoulas(fetched: seq<Doula>)
      modifies this`doulas, this`filteredDoulas
      ensures doulas == fetched && filteredDoulas == fetched
    {
      doulas := fetched;
      filteredDoulas := fetched;
    }

    /**
     * The filtering effect: a copy of the fetched list is filtered and sorted by
     * experience, by name, or by random keys; the shown list is a reordering of the
     * filtered doulas, sorted as chosen, and the fetched list is left untouched.
     */
    method ApplyFilters(collate: (string, string) -> int, rank: Doula -> int)
      requires Collation(collate)
      modifies this`filteredDoulas
      ensures filteredDoulas == InsertionSort(FilterDoulas(doulas, searchTerm, areaFilter), Order(sortBy, collate, rank))
      ensures TotalPreorder(Order(sortBy, collate, rank))
      ensures multiset(filteredDoulas) == multiset(FilterDoulas(doulas, searchTerm, areaFilter))
      ensures SortedBy(filteredDoulas, Order(sortBy, collate, rank))
    {
      var result := FilterDoulas(doulas, searchTerm, areaFilter);
      var le := Order(sortBy, collate, rank);
      OrderTotal(sortBy, collate, rank);
      filteredDoulas := SortedCopy(result, le);
      InsertionSortPermutes(result, le);
      InsertionSortSorted(result, le);
    }
  }
}
