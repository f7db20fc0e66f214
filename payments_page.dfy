/**
 * The doula's payments page: totals over all payments and agreed prices, the split of
 * clients into active and archived, the per-client payment filter, the new-payment form
 * and the labels of payment methods and statuses. Amounts are whole shekels.
 */
module PaymentsPage {
  import opened Wrappers
  import opened Seqs

  /** A recorded payment. */
  datatype Payment = Payment(
    id: string, pregnancyId: string, amount: int, paymentMethod: string, status: string)

  /** A client's pregnancy; an `agreed_price` that is missing or not a number is `None`. */
  datatype Client = Client(id: string, agreedPrice: Option<int>, isActive: bool)

  /** The totals shown in the three stats cards. */
  datatype Stats = Stats(totalPaid: int, totalAgreed: int, pending: int)

  /** The new-payment form; every field is the text of its input, the date a day number. */
  datatype PaymentForm = PaymentForm(
    pregnancyId: string, amount: string, paymentDate: int, paymentMethod: string,
    status: string, invoiceUrl: string, notes: string)

  /** The amounts of the payments, in order. */
  function Amounts(payments: seq<Payment>): (r: seq<int>)
    ensures |r| == |payments|
    ensures forall i :: 0 <= i < |payments| ==> r[i] == payments[i].amount
  {
    seq(|payments|, i requires 0 <= i < |payments| => payments[i].amount)
  }

  /** `Number(p.agreed_price) || 0`: each client's agreed price, or 0 without one. */
  function AgreedPrices(clients: seq<Client>): (r: seq<int>)
    ensures |r| == |clients|
    ensures forall i :: 0 <= i < |clients| ==> r[i] == clients[i].agreedPrice.GetOr(0)
  {
    seq(|clients|, i requires 0 <= i < |clients| => clients[i].agreedPrice.GetOr(0))
  }

  /**
   * The totals: everything paid, everything agreed (a missing price counts as 0), and the
   * difference, which goes negative when more was paid than agreed.
   */
  function ComputeStats(payments: seq<Payment>, clients: seq<Client>): (r: Stats)
    ensures r.totalPaid == Sum(Amounts(payments))
    ensures r.totalAgreed == Sum(AgreedPrices(clients))
    ensures r.pending == r.totalAgreed - r.totalPaid
  {
    var paid := Sum(Amounts(payments));
    var agreed := Sum(AgreedPrices(clients));
    Stats(paid, agreed, agreed - paid)
  }

  /** One more payment raises the amount paid by its amount and lowers the pending sum as much. */
  lemma NewPaymentReducesPending(payments: seq<Payment>, p: Payment, clients: seq<Client>)
    ensures ComputeStats(payments + [p], clients).totalPaid
         == ComputeStats(payments, clients).totalPaid + p.amount
    ensures ComputeStats(payments + [p], clients).pending
         == ComputeStats(payments, clients).pending - p.amount
  {
    assert Amounts(payments + [p]) == Amounts(payments) + [p.amount];
    SumAppend(Amounts(payments), [p.amount]);
  }

  /** With non-negative prices the agreed total is never negative; a client without a price adds nothing. */
  lemma AgreedTotalNonNegative(clients: seq<Client>)
    requires forall i :: 0 <= i < |clients| && clients[i].agreedPrice.Some? ==> clients[i].agreedPrice.value >= 0
    ensures ComputeStats([], clients).totalAgreed >= 0
  {
    SumAtLeast(AgreedPrices(clients), 0);
  }

  /** `clients.filter((c) => c.is_active)`. */
  function ActiveClients(clients: seq<Client>): (r: seq<Client>)
    ensures forall i :: 0 <= i < |r| ==> r[i].isActive
    ensures SubsequenceOf(r, clients)
  {
    FilterSubsequence(clients, (c: Client) => c.isActive);
    Filter(clients, (c: Client) => c.isActive)
  }

  /** `clients.filter((c) => !c.is_active)`. */
  function ArchivedClients(clients: seq<Client>): (r: seq<Client>)
    ensures forall i :: 0 <= i < |r| ==> !r[i].isActive
    ensures SubsequenceOf(r, clients)
  {
    FilterSubsequence(clients, (c: Client) => !c.isActive);
    Filter(clients, (c: Client) => !c.isActive)
  }

  /** Every client is in exactly one of the two groups. */
  lemma ClientsPartitioned(clients: seq<Client>)
    ensures multiset(ActiveClients(clients)) + multiset(ArchivedClients(clients)) == multiset(clients)
    ensures |ActiveClients(clients)| + |ArchivedClients(clients)| == |clients|
  {
    FilterPartition(clients, (c: Client) => c.isActive, (c: Client) => !c.isActive);
  }

  /** The payments shown: all of them, or those of the selected pregnancy, in order. */
  function FilteredPayments(payments: seq<Payment>, selected: string): (r: seq<Payment>)
    ensures selected == "all" ==> r == payments
    ensures SubsequenceOf(r, payments)
    ensures selected != "all" ==> forall i :: 0 <= i < |r| ==> r[i].pregnancyId == selected
    ensures selected != "all" ==>
      forall i :: 0 <= i < |payments| && payments[i].pregnancyId == selected ==> payments[i] in r
  {
    if selected == "all" then
      FilterKeepsAll(payments, (p: Payment) => true);
      FilterSubsequence(payments, (p: Payment) => true);
      payments
    else
      FilterSubsequence(payments, (p: Payment) => p.pregnancyId == selected);
      Filter(payments, (p: Payment) => p.pregnancyId == selected)
  }

  /** The form's state after a successful save: the amount, invoice link and notes cleared. */
  function ResetAfterSave(f: PaymentForm): (r: PaymentForm)
    ensures r.amount == [] && r.invoiceUrl == [] && r.notes == []
    ensures r.pregnancyId == f.pregnancyId && r.paymentDate == f.paymentDate
    ensures r.paymentMethod == f.paymentMethod && r.status == f.status
  {
    f.(amount := "", invoiceUrl := "", notes := "")
  }

  /** The labels of the known payment methods. */
  function MethodLabel(paymentMethod: string): (r: string)
    ensures paymentMethod == "transfer" ==> r == "העברה"
    ensures paymentMethod == "bit" ==> r == "Bit/PayBox"
    ensures paymentMethod == "cash" ==> r == "מזומן"
    ensures paymentMethod == "check" ==> r == "צ'ק"
    ensures paymentMethod == "credit" ==> r == "אשראי"
    ensures paymentMethod !in KnownMethods ==> r == paymentMethod
  {
    match paymentMethod
    case "transfer" => "העברה"
    case "bit" => "Bit/PayBox"
    case "cash" => "מזומן"
    case "check" => "צ'ק"
    case "credit" => "אשראי"
    case _ => paymentMethod
  }

  const KnownMethods: set<string> := {"transfer", "bit", "cash", "check", "credit"}

  /** Different known methods show different labels. */
  lemma MethodLabelsDistinct(a: string, b: string)
    requires a in KnownMethods && b in KnownMethods && a != b
    ensures MethodLabel(a) != MethodLabel(b)
  {
  }

  /** The status badge: `שולם` exactly for `paid`, `ממתין` for anything else. */
  function StatusLabel(status: string): (r: string)
    ensures r == "שולם" <==> status == "paid"
    ensures r == "ממתין" <==> status != "paid"
  {
    if status == "paid" then "שולם" else "ממתין"
  }

  /** The page's state. */
  class PaymentsPageState {
    var payments: seq<Payment>
    var clients: seq<Client>
    var stats: Stats
    var formData: PaymentForm
    var isDialogOpen: bool

    constructor(today: int)
      ensures payments == [] && clients == [] && stats == Stats(0, 0, 0) && !isDialogOpen
      ensures formData == PaymentForm("", "", today, "transfer", "paid", "", "")
    {
      payments := [];
      clients := [];
      stats := Stats(0, 0, 0);
      formData := PaymentForm("", "", today, "transfer", "paid", "", "");
      isDialogOpen := false;
    }

    /** `fetchData` with a signed-in user: the lists are replaced and the totals recomputed. */
    method FetchData(fetchedClients: seq<Client>, fetchedPayments: seq<Payment>)
      modifies this`payments, this`clients, this`stats
      ensures clients == fetchedClients && payments == fetchedPayments
      ensures stats == ComputeStats(fetchedPayments, fetchedClients)
    {
      clients := fetchedClients;
      payments := fetchedPayments;
      stats := ComputeStats(payments, clients);
    }

    /**
     * `handleSave`: without a pregnancy or an amount nothing is sent and nothing changes;
     * otherwise the form is inserted, and only a successful insert closes the dialog,
     * resets the form and asks for a refetch.
     */
    method HandleSave(insertOk: bool) returns (inserted: Option<PaymentForm>, refetch: bool)
      modifies this`formData, this`isDialogOpen
      ensures old(formData).pregnancyId == [] || old(formData).amount == [] ==>
        inserted.None? && !refetch && formData == old(formData) && isDialogOpen == old(isDialogOpen)
      ensures old(formData).pregnancyId != [] && old(formData).amount != [] ==>
        inserted == Some(old(formData)) && refetch == insertOk
      ensures inserted.Some? && insertOk ==> !isDialogOpen && formData == ResetAfterSave(old(formData))
      ensures inserted.Some? && !insertOk ==> isDialogOpen == old(isDialogOpen) && formData == old(formData)
    {
      if formData.pregnancyId == [] || formData.amount == [] {
        return None, false;
      }
      inserted := Some(formData);
      refetch := insertOk;
      if insertOk {
        isDialogOpen := false;
        formData := ResetAfterSave(formData);
      }
    }

    /**
     * `handleDelete`: nothing without the user's confirmation; otherwise the payment is
     * deleted and the page refetches, since the delete's own error is never looked at.
     */
    method HandleDelete(id: string, confirmed: bool) returns (deleted: Option<string>, refetch: bool)
      ensures deleted.Some? <==> confirmed
      ensures deleted.Some? ==> deleted.value == id
      ensures refetch <==> confirmed
    {
      if !confirmed {
        return None, false;
      }
      deleted := Some(id);
      refetch := true;
    }
  }
}
