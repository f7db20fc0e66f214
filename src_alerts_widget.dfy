/**
 * The dashboard's alerts widget (first generation): a fixed list of sample alerts, styled
 * by their type, that the doula dismisses one at a time or all at once.
 */
module SrcAlertsWidget {
  import opened Seqs

  datatype AlertType = Urgent | Warning | Info | Success

  datatype Alert = Alert(id: string, kind: AlertType, title: string, message: string, time: string)

  /** The three sample alerts the widget starts with. */
  const InitialAlerts: seq<Alert> := [
    Alert("1", Urgent, "שירה לוי - צירים", "דווח על צירים סדירים כל 5 דקות", "לפני 10 דקות"),
    Alert("2", Warning, "נועה כהן - שבוע 39", "מתקרבת לתאריך הלידה המשוער", "לפני שעה"),
    Alert("3", Info, "פגישה בעוד שעתיים", "פגישת היכרות עם לקוחה חדשה", "לפני שעתיים")]

  /** The icons of the configuration table. */
  datatype Icon = Triangle | InfoCircle | CheckCircle

  datatype Style = Style(bg: string, icon: Icon, iconColor: string)

  /** `alertConfig[type]`. */
  function Config(t: AlertType): Style {
    match t
    case Urgent => Style("bg-destructive/10 border-destructive/30", Triangle, "text-destructive")
    case Warning => Style("bg-peach-light border-peach/50", Triangle, "text-terracotta")
    case Info => Style("bg-sage-light border-sage/50", InfoCircle, "text-secondary-foreground")
    case Success => Style("bg-sage-light border-sage", CheckCircle, "text-secondary-foreground")
  }

  /** `prev.filter((a) => a.id !== id)`. */
  function Dismiss(alerts: seq<Alert>, id: string): (r: seq<Alert>)
    ensures SubsequenceOf(r, alerts)
    ensures forall i :: 0 <= i < |r| ==> r[i].id != id
    ensures forall i :: 0 <= i < |alerts| && alerts[i].id != id ==> alerts[i] in r
    ensures forall a :: a in r <==> a in alerts && a.id != id
  {
    FilterSubsequence(alerts, Other(id));
    var r := Filter(alerts, Other(id));
    assert forall a :: a in r ==> a in multiset(r);
    r
  }

  /** The filter's test: an alert with another id. */
  function Other(id: string): Alert -> bool {
    (a: Alert) => a.id != id
  }

  /** Dismissing the first alert when no other alert shares its id leaves the rest. */
  lemma DismissFirst(alerts: seq<Alert>)
    requires alerts != []
    requires forall i :: 1 <= i < |alerts| ==> alerts[i].id != alerts[0].id
    ensures Dismiss(alerts, alerts[0].id) == alerts[1..]
  {
    FilterKeepsAll(alerts[1..], Other(alerts[0].id));
  }

  /** What the header and body show for a list of alerts. */
  datatype View = View(badge: nat, clearButton: bool, emptyState: bool)

  /** The counter and the clear-all button appear together, exactly when the empty state does not. */
  function ViewOf(alerts: seq<Alert>): (r: View)
    ensures r.clearButton <==> !r.emptyState
    ensures r.emptyState <==> alerts == []
    ensures r.clearButton ==> r.badge == |alerts| && r.badge > 0
  {
    View(if |alerts| > 0 then |alerts| else 0, |alerts| > 0, |alerts| == 0)
  }

  /** Dismissing the alerts with the given ids, one after another, in the order given. */
  function DismissEach(alerts: seq<Alert>, ids: seq<string>): seq<Alert>
    decreases |ids|
  {
    if ids == [] then alerts else DismissEach(Dismiss(alerts, ids[0]), ids[1..])
  }

  /** After a run of dismissals the list holds exactly the alerts whose id was not dismissed. */
  lemma {:induction false} DismissEachKeeps(alerts: seq<Alert>, ids: seq<string>)
    ensures forall a :: a in DismissEach(alerts, ids) <==> a in alerts && a.id !in ids
    decreases |ids|
  {
    if ids != [] {
      var r := Dismiss(alerts, ids[0]);
      DismissEachKeeps(r, ids[1..]);
    }
  }

  /** Dismissing every listed alert one at a time has the same result as clearing them all. */
  lemma DismissEachIsClear(alerts: seq<Alert>, ids: seq<string>)
    ensures DismissEach(alerts, ids) == ClearAll(alerts) <==>
      forall i :: 0 <= i < |alerts| ==> alerts[i].id in ids
  {
    DismissEachKeeps(alerts, ids);
    var r := DismissEach(alerts, ids);
    if r != [] {
      assert r[0] in r;
    }
    if r == [] {
      forall i | 0 <= i < |alerts| ensures alerts[i].id in ids {
        assert alerts[i] in alerts;
      }
    }
  }

  /** The clear-all button: the list becomes empty, which shows the empty state and hides the button. */
  function ClearAll(alerts: seq<Alert>): (r: seq<Alert>)
    ensures r == []
    ensures ViewOf(r).emptyState && !ViewOf(r).clearButton
  {
    []
  }
}
