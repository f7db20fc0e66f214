/**
 * The doula's list of clients (first generation): a name search over the fetched
 * pregnancies and the card shown for each.
 */
module SrcClientsList {
  import opened Wrappers
  import opened JsMath
  import opened JsText
  import opened Seqs
  import opened Pregnancy

  /** A fetched pregnancy with its mother's profile, which may be missing. */
  datatype ClientRow = ClientRow(
    id: string, dueDate: Option<int>, isActive: bool, fullName: Option<string>)

  /** `c.profiles?.full_name || ""`. */
  function NameOf(c: ClientRow): string {
    if Truthy(c.fullName) then c.fullName.value else ""
  }

  /** The search predicate: the lowercased term occurs in the lowercased name. */
  predicate Matches(c: ClientRow, term: string) {
    Contains(ToLower(NameOf(c)), ToLower(term))
  }

  /**
   * `filteredClients`: the clients whose name contains the term, ignoring case, in their
   * fetched order.
   */
  function FilteredClients(clients: seq<ClientRow>, term: string): (r: seq<ClientRow>)
    ensures SubsequenceOf(r, clients)
    ensures forall i :: 0 <= i < |r| ==> Matches(r[i], term)
    ensures forall i :: 0 <= i < |clients| && Matches(clients[i], term) ==> clients[i] in r
  {
    var keep := (c: ClientRow) => Matches(c, term);
    FilterSubsequence(clients, keep);
    Filter(clients, keep)
  }

  /** An empty search keeps every client, including those without a profile. */
  lemma EmptySearchKeepsAll(clients: seq<ClientRow>)
    ensures FilteredClients(clients, "") == clients
  {
    forall i | 0 <= i < |clients| ensures Matches(clients[i], "") {
      ContainsEmpty(ToLower(NameOf(clients[i])), "");
    }
    FilterKeepsAll(clients, (c: ClientRow) => Matches(c, ""));
  }

  /** A client without a profile matches only the empty search. */
  lemma MissingProfileMatchesOnlyEmpty(c: ClientRow, term: string)
    requires c.fullName.None?
    ensures Matches(c, term) <==> term == []
  {
    ContainsEmpty(ToLower(NameOf(c)), ToLower(term));
  }

  /** `calculateWeek`: 0 without a due date, otherwise the raw week clamped at 0. */
  function CalculateWeek(due: Option<int>, now: int): (r: int)
    ensures r >= 0
    ensures due.None? ==> r == 0
    ensures due.Some? ==> r == Max(0, RawWeek(due.value, now))
  {
    if due.None? then 0 else Max(0, 40 - FloorDiv(due.value - now, WeekMs))
  }

  datatype CardStatus = Active | Approaching

  /** The card's status follows `is_active` alone. */
  function StatusOf(c: ClientRow): (r: CardStatus)
    ensures r == Active <==> c.isActive
  {
    if c.isActive then Active else Approaching
  }

  const NoNamePlaceholder: string := "לקוחה ללא שם"

  /** The name on the card, or the placeholder when it is missing or empty. */
  function CardName(c: ClientRow): (r: string)
    ensures r != []
    ensures Truthy(c.fullName) ==> r == c.fullName.value
    ensures !Truthy(c.fullName) ==> r == NoNamePlaceholder
  {
    if Truthy(c.fullName) then c.fullName.value else NoNamePlaceholder
  }

  /** The due date on the card, rendered by the locale formatter, or `-` without one. */
  function DueLabel(due: Option<int>, formatDate: int -> string): (r: string)
    ensures due.None? ==> r == "-"
    ensures due.Some? ==> r == formatDate(due.value)
  {
    if due.Some? then formatDate(due.value) else "-"
  }
}
