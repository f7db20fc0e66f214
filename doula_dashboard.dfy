/**
 * The doula's dashboard, whose client logic is the same in both generations: each active
 * pregnancy becomes a card with its week and status, the cards are filtered by a
 * case-sensitive name search and a status tab, and the stats count them.
 */
module DoulaDashboard {
  import opened Wrappers
  import opened JsMath
  import opened JsText
  import opened Seqs
  import opened Pregnancy

  /** The joined `profiles` row of the mother. */
  datatype Profile = Profile(fullName: string)

  /**
   * A fetched active pregnancy; `due` is `null` when the column is empty, and the joined
   * profile is `null` when the mother has no profile row.
   */
  datatype PregnancyRow = PregnancyRow(
    id: string, due: Option<int>, hospital: Option<string>, profile: Option<Profile>)

  /** A client card as the list renders it. */
  datatype Card = Card(id: string, name: string, week: int, location: string, status: string)

  const Approaching: string := "approaching"
  const Active: string := "active"
  const NoLocation: string := "לא נקבע"

  /**
   * The mapping in `fetchClients`: the week is `40 - floor((due - today) / week)` with no
   * clamp (an empty due date reads as the epoch), and the status is `approaching` from
   * week 38 on, `active` before.
   */
  function FormatClient(row: PregnancyRow, today: int): (r: Card)
    requires row.profile.Some?
    ensures r.id == row.id && r.name == row.profile.value.fullName
    ensures r.week == RawWeek(row.due.GetOr(0), today)
    ensures r.status == Approaching <==> r.week >= 38
    ensures r.status == Active <==> r.week < 38
    ensures r.location == (if Truthy(row.hospital) then row.hospital.value else NoLocation)
  {
    var week := 40 - FloorDiv(row.due.GetOr(0) - today, WeekMs);
    Card(row.id, row.profile.value.fullName, week,
      if Truthy(row.hospital) then row.hospital.value else NoLocation,
      if week >= 38 then Approaching else Active)
  }

  /** A client is approaching exactly when fewer than three weeks remain before the due date. */
  lemma ApproachingIff(row: PregnancyRow, today: int)
    requires row.due.Some? && row.profile.Some?
    ensures FormatClient(row, today).status == Approaching <==> row.due.value - today < 3 * WeekMs
  {
    var x := row.due.value - today;
    var q := FloorDiv(x, WeekMs);
    assert WeekMs * q <= x < WeekMs * q + WeekMs;
    if q <= 2 {
      assert WeekMs * q + WeekMs <= 3 * WeekMs;
    } else {
      assert WeekMs * q >= 3 * WeekMs;
    }
  }

  /**
   * `data.map(...)`: one card per row, in order; `None` when a row without a profile makes
   * reading `item.profiles.full_name` throw.
   */
  function FormatClients(rows: seq<PregnancyRow>, today: int): (r: Option<seq<Card>>)
    ensures r.None? <==> exists i :: 0 <= i < |rows| && rows[i].profile.None?
    ensures r.Some? ==> |r.value| == |rows|
    ensures r.Some? ==> forall i :: 0 <= i < |rows| ==> r.value[i] == FormatClient(rows[i], today)
  {
    if forall i :: 0 <= i < |rows| ==> rows[i].profile.Some? then
      Some(seq(|rows|, i requires 0 <= i < |rows| => FormatClient(rows[i], today)))
    else
      None
  }

  /**
   * The client list after `fetchClients`: the formatted rows when the query succeeds and
   * every row formats; otherwise the error is shown and the list stays as it was.
   */
  function ClientsAfterFetch(prev: seq<Card>, fetched: Option<seq<PregnancyRow>>, today: int): (r: seq<Card>)
    ensures fetched.None? ==> r == prev
    ensures fetched.Some? && FormatClients(fetched.value, today).None? ==> r == prev
    ensures fetched.Some? && FormatClients(fetched.value, today).Some? ==>
      r == FormatClients(fetched.value, today).value
  {
    if fetched.None? then prev
    else match FormatClients(fetched.value, today)
      case None => prev
      case Some(cards) => cards
  }

  /** The card filter: a case-sensitive name match and, unless the tab is `all`, the status. */
  predicate Shown(c: Card, term: string, tab: string) {
    Contains(c.name, term) && (tab == "all" || c.status == tab)
  }

  /** `filteredClients`: the cards that pass the filter, in order. */
  function FilteredClients(cards: seq<Card>, term: string, tab: string): (r: seq<Card>)
    ensures SubsequenceOf(r, cards) && multiset(r) <= multiset(cards)
    ensures forall i :: 0 <= i < |r| ==> Contains(r[i].name, term)
    ensures tab != "all" ==> forall i :: 0 <= i < |r| ==> r[i].status == tab
    ensures forall i :: 0 <= i < |cards| && Shown(cards[i], term, tab) ==> cards[i] in r
  {
    var keep := (c: Card) => Shown(c, term, tab);
    FilterSubsequence(cards, keep);
    Filter(cards, keep)
  }

  /** The `all` tab with an empty search shows every card. */
  lemma AllTabShowsAll(cards: seq<Card>)
    ensures FilteredClients(cards, "", "all") == cards
  {
    forall i | 0 <= i < |cards| ensures Shown(cards[i], "", "all") {
      ContainsEmpty(cards[i].name, "");
    }
    FilterKeepsAll(cards, (c: Card) => Shown(c, "", "all"));
  }

  /**
   * `clients.filter((c) => c.status === status).length`, as the stats cards count: the
   * number of cards with that status, which is the length of that tab's unsearched list.
   */
  function StatusCount(cards: seq<Card>, status: string): (n: nat)
    ensures n <= |cards|
    ensures n == 0 <==> forall i :: 0 <= i < |cards| ==> cards[i].status != status
    ensures status != "all" ==> n == |FilteredClients(cards, "", status)|
  {
    FilterCount(cards, HasStatus(status));
    if status != "all" then
      TabIsStatusFilter(cards, status);
      Count(cards, HasStatus(status))
    else
      Count(cards, HasStatus(status))
  }

  function HasStatus(status: string): Card -> bool {
    (c: Card) => c.status == status
  }

  /** With an empty search, a status tab keeps exactly the cards with that status. */
  lemma TabIsStatusFilter(cards: seq<Card>, status: string)
    requires status != "all"
    ensures Filter(cards, HasStatus(status)) == FilteredClients(cards, "", status)
  {
    forall i | 0 <= i < |cards| ensures HasStatus(status)(cards[i]) == Shown(cards[i], "", status) {
      ContainsEmpty(cards[i].name, "");
    }
    FilterSame(cards, HasStatus(status), (c: Card) => Shown(c, "", status));
  }

  /** No card is ever `urgent`, so the contraction-tracking stat always reads 0. */
  lemma UrgentCountIsZero(rows: seq<PregnancyRow>, today: int)
    requires FormatClients(rows, today).Some?
    ensures StatusCount(FormatClients(rows, today).value, "urgent") == 0
  {
    var cards := FormatClients(rows, today).value;
    forall i | 0 <= i < |cards| ensures cards[i].status != "urgent" {
      assert cards[i].status == Approaching || cards[i].status == Active;
    }
  }

  /** The `urgent` tab therefore always shows an empty list. */
  lemma UrgentTabEmpty(rows: seq<PregnancyRow>, today: int, term: string)
    requires FormatClients(rows, today).Some?
    ensures FilteredClients(FormatClients(rows, today).value, term, "urgent") == []
  {
    var cards := FormatClients(rows, today).value;
    forall i | 0 <= i < |cards| ensures !Shown(cards[i], term, "urgent") {
      assert cards[i].status == Approaching || cards[i].status == Active;
    }
    FilterKeepsNone(cards, (c: Card) => Shown(c, term, "urgent"));
  }

  /** The greeting uses `full_name.split(" ")[0]`, the first name of a two-part name. */
  lemma GreetingIsFirstName(first: string, last: string)
    requires ' ' !in first
    ensures FirstPiece(first + " " + last, ' ') == first
  {
    FirstPieceBeforeSep(first, last, ' ');
  }
}
