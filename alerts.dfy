/** The incident-history page: the severity filter over the fetched alert
    list, the icon and badge chosen per severity, and the empty-list branch.
    Fetching the list is outside the model; the list is an input. */
module Alerts {

  /** The filter value that shows every alert. */
  const AllFilter: string := "ALL"

  datatype Alert = Alert(id: int, time: string, severity: string, message: string, source: string)

  /** r is an order-preserving subsequence of s. */
  predicate IsSubsequence<T(==)>(r: seq<T>, s: seq<T>)
  {
    if r == [] then true
    else if s == [] then false
    else if r[0] == s[0] then IsSubsequence(r[1..], s[1..])
    else IsSubsequence(r, s[1..])
  }

  lemma {:induction false} SubsequenceReflexive<T>(s: seq<T>)
    ensures IsSubsequence(s, s)
  {
    if s != [] {
      SubsequenceReflexive(s[1..]);
    }
  }

  /** `alerts.filter(a => a.severity === severity)`: only matching alerts, in
      their original order, and every matching alert as often as it occurs. */
  function WithSeverity(alerts: seq<Alert>, severity: string): (r: seq<Alert>)
    ensures forall a :: a in r ==> a.severity == severity
    ensures IsSubsequence(r, alerts)
    ensures forall a :: multiset(r)[a] == if a.severity == severity then multiset(alerts)[a] else 0
  {
    if alerts == [] then []
    else
      var rest := WithSeverity(alerts[1..], severity);
      assert alerts == [alerts[0]] + alerts[1..];
      if alerts[0].severity == severity then
        var r := [alerts[0]] + rest;
        assert r[1..] == rest;
        r
      else
        assert rest != [] ==> rest[0] in rest;
        rest
  }

  /** `filteredAlerts`: the whole list under "ALL", else the alerts whose
      severity equals the filter. */
  function FilterAlerts(alerts: seq<Alert>, filter: string): (r: seq<Alert>)
    ensures filter == AllFilter ==> r == alerts
    ensures filter != AllFilter ==> forall a :: a in r ==> a.severity == filter
    ensures filter != AllFilter ==>
      forall a :: a in alerts && a.severity == filter ==> a in r
    ensures filter != AllFilter ==>
      forall a :: multiset(r)[a] == if a.severity == filter then multiset(alerts)[a] else 0
    ensures IsSubsequence(r, alerts)
  {
    if filter == AllFilter then
      SubsequenceReflexive(alerts);
      alerts
    else
      var r := WithSeverity(alerts, filter);
      assert forall a :: a in alerts ==> multiset(alerts)[a] > 0;
      r
  }

  lemma {:induction false} WithSeverityIdempotent(alerts: seq<Alert>, severity: string)
    ensures WithSeverity(WithSeverity(alerts, severity), severity) == WithSeverity(alerts, severity)
  {
    if alerts != [] {
      WithSeverityIdempotent(alerts[1..], severity);
      var rest := WithSeverity(alerts[1..], severity);
      if alerts[0].severity == severity {
        var r := [alerts[0]] + rest;
        assert r[1..] == rest;
      }
    }
  }

  /** Choosing the same filter twice shows what choosing it once shows. */
  lemma FilterIdempotent(alerts: seq<Alert>, filter: string)
    ensures FilterAlerts(FilterAlerts(alerts, filter), filter) == FilterAlerts(alerts, filter)
  {
    if filter != AllFilter {
      WithSeverityIdempotent(alerts, filter);
    }
  }

  /** The icon glyphs of the page. */
  datatype Glyph = AlertTriangle | InfoGlyph | CheckCircle

  datatype Icon = Icon(glyph: Glyph, className: string)

  /** `getIcon`: CRITICAL and WARNING have their own icon; any other
      severity, INFO included, takes the default. */
  function GetIcon(severity: string): (icon: Icon)
    ensures severity == "CRITICAL" ==> icon == Icon(AlertTriangle, "text-danger")
    ensures severity == "WARNING" ==> icon == Icon(InfoGlyph, "text-warning")
    ensures severity != "CRITICAL" && severity != "WARNING" ==> icon == Icon(CheckCircle, "text-primary")
  {
    match severity
    case "CRITICAL" => Icon(AlertTriangle, "text-danger")
    case "WARNING" => Icon(InfoGlyph, "text-warning")
    case _ => Icon(CheckCircle, "text-primary")
  }

  /** `getBadgeStyle`: the badge's class list, by the same three cases. */
  function GetBadgeStyle(severity: string): (style: string)
    ensures severity == "CRITICAL" ==> style == "bg-danger/10 text-danger border-danger/20"
    ensures severity == "WARNING" ==> style == "bg-warning/10 text-warning border-warning/20"
    ensures severity != "CRITICAL" && severity != "WARNING" ==> style == "bg-primary/10 text-primary border-primary/20"
  {
    match severity
    case "CRITICAL" => "bg-danger/10 text-danger border-danger/20"
    case "WARNING" => "bg-warning/10 text-warning border-warning/20"
    case _ => "bg-primary/10 text-primary border-primary/20"
  }

  /** The two switches classify severities the same way: two severities get
      the same icon exactly when they get the same badge, and the classes are
      CRITICAL, WARNING and everything else. */
  lemma IconAndBadgeAgree(s1: string, s2: string)
    ensures GetIcon(s1) == GetIcon(s2) <==> GetBadgeStyle(s1) == GetBadgeStyle(s2)
    ensures GetIcon(s1) == GetIcon(s2) <==>
      (s1 == s2 || (s1 != "CRITICAL" && s1 != "WARNING" && s2 != "CRITICAL" && s2 != "WARNING"))
  {
    var critical := "bg-danger/10 text-danger border-danger/20";
    var warning := "bg-warning/10 text-warning border-warning/20";
    var other := "bg-primary/10 text-primary border-primary/20";
    assert critical[3] != warning[3] && critical[3] != other[3] && warning[3] != other[3];
  }

  /** INFO, the third severity the server sends, takes the default case. */
  lemma InfoTakesDefault()
    ensures GetIcon("INFO") == GetIcon("ANY OTHER") == Icon(CheckCircle, "text-primary")
    ensures GetBadgeStyle("INFO") == "bg-primary/10 text-primary border-primary/20"
  {
  }

  /** One rendered alert row. */
  datatype Row = Row(alert: Alert, icon: Icon, badge: string)

  datatype ListView = NoAlertsFound | Rows(rows: seq<Row>)

  /** The list area: "No alerts found." exactly when the filtered list is
      empty; otherwise one row per alert, in order, styled by severity. */
  function RenderList(filtered: seq<Alert>): (v: ListView)
    ensures v == NoAlertsFound <==> |filtered| == 0
    ensures v.Rows? ==> |v.rows| == |filtered|
    ensures v.Rows? ==> forall i :: 0 <= i < |filtered| ==>
      v.rows[i].alert == filtered[i] && v.rows[i].icon == GetIcon(filtered[i].severity)
      && v.rows[i].badge == GetBadgeStyle(filtered[i].severity)
  {
    if |filtered| == 0 then NoAlertsFound
    else Rows(seq(|filtered|, i requires 0 <= i < |filtered| =>
      Row(filtered[i], GetIcon(filtered[i].severity), GetBadgeStyle(filtered[i].severity))))
  }
}
