/** The list of fired alerts: filtering by severity, read state and rule name, marking
    alerts read, the unread counter, the CSV export and the shortened call-id list. */
module Alerts {
  import opened Basics
  import opened Seqs
  import opened Strings
  import opened Delimited
  import opened Decimal

  datatype Severity = Info | Warning | Critical

  /** The string a severity is stored as and compared against the filter with. */
  function SeverityName(s: Severity): (r: string)
    ensures r in {"info", "warning", "critical"}
  {
    match s
    case Info => "info"
    case Warning => "warning"
    case Critical => "critical"
  }

  lemma SeverityNameInjective(a: Severity, b: Severity)
    ensures SeverityName(a) == SeverityName(b) <==> a == b
  {
  }

  datatype Alert = Alert(
    id: string,
    ruleId: string,
    ruleName: string,
    severity: Severity,
    triggeredAt: string,
    windowStart: string,
    windowEnd: string,
    count: int,
    callIds: seq<string>,
    read: bool)

  /** The four alerts the list starts with. */
  function InitialAlerts(): seq<Alert> {
    [ Alert("alert_001", "rule_001", "高频支付失败", Critical, "2025-11-14 14:35:22",
            "2025-11-14 14:00:00", "2025-11-14 14:30:00", 8,
            ["call_001", "call_002", "call_003", "call_004", "call_005"], false),
      Alert("alert_002", "rule_002", "大额退款", Warning, "2025-11-14 13:22:15",
            "2025-11-14 13:00:00", "2025-11-14 13:15:00", 2,
            ["call_006", "call_007"], true),
      Alert("alert_003", "rule_003", "强烈投诉激增", Critical, "2025-11-14 12:18:45",
            "2025-11-14 12:00:00", "2025-11-14 12:10:00", 4,
            ["call_008", "call_009", "call_010"], true),
      Alert("alert_004", "rule_001", "高频支付失败", Warning, "2025-11-14 11:05:33",
            "2025-11-14 10:30:00", "2025-11-14 11:00:00", 6,
            ["call_011", "call_012", "call_013"], true) ]
  }

  /** Of the four starting alerts only the first is unread. */
  lemma InitialUnreadCount()
    ensures UnreadCount(InitialAlerts()) == 1
  {
    var xs := InitialAlerts();
    assert xs == [xs[0]] + xs[1..];
    FilterConcat([xs[0]], xs[1..], (a: Alert) => !a.read);
    FilterEmpty(xs[1..], (a: Alert) => !a.read);
  }

  // ---------------------------------------------------------------- filtering

  /** Whether an alert passes the three filters. `severity` and `readState` are the
      selected option values ("all" or a value); `query` is the search text. */
  predicate Shown(a: Alert, severity: string, readState: string, query: string) {
    && !(severity != "all" && SeverityName(a.severity) != severity)
    && !(readState == "unread" && a.read)
    && !(readState == "read" && !a.read)
    && !(query != [] && !Occurs(ToLower(a.ruleName), ToLower(query)))
  }

  /** `filteredAlerts`: the alerts that pass the filters, in list order. */
  function FilteredAlerts(alerts: seq<Alert>, severity: string, readState: string, query: string): seq<Alert> {
    Filter(alerts, (a: Alert) => Shown(a, severity, readState, query))
  }

  /** The filtered list is an order-preserving sub-list holding exactly the shown alerts. */
  lemma FilteredExactly(alerts: seq<Alert>, severity: string, readState: string, query: string)
    ensures IsSubsequence(FilteredAlerts(alerts, severity, readState, query), alerts)
    ensures forall a :: a in FilteredAlerts(alerts, severity, readState, query) <==>
              a in alerts && Shown(a, severity, readState, query)
  {
    FilterIsSubsequence(alerts, (a: Alert) => Shown(a, severity, readState, query));
    FilterKeepsPassing(alerts, (a: Alert) => Shown(a, severity, readState, query));
    var r := FilteredAlerts(alerts, severity, readState, query);
    forall a | a in alerts && Shown(a, severity, readState, query) ensures a in r {
      var i :| 0 <= i < |alerts| && alerts[i] == a;
    }
  }

  /** A severity other than "all" keeps exactly the alerts of that severity. */
  lemma SeverityFilter(alerts: seq<Alert>, severity: string, readState: string, query: string)
    requires severity != "all"
    ensures forall a :: a in FilteredAlerts(alerts, severity, readState, query) ==> SeverityName(a.severity) == severity
    ensures forall a :: a in FilteredAlerts(alerts, severity, readState, query) <==>
              a in FilteredAlerts(alerts, "all", readState, query) && SeverityName(a.severity) == severity
  {
    FilteredExactly(alerts, severity, readState, query);
    FilteredExactly(alerts, "all", readState, query);
  }

  /** "unread" keeps exactly the unread alerts that "all" would show, "read" exactly the
      read ones, and "all" shows both. */
  lemma ReadFilter(alerts: seq<Alert>, severity: string, query: string)
    ensures forall a :: a in FilteredAlerts(alerts, severity, "unread", query) <==>
              a in FilteredAlerts(alerts, severity, "all", query) && !a.read
    ensures forall a :: a in FilteredAlerts(alerts, severity, "read", query) <==>
              a in FilteredAlerts(alerts, severity, "all", query) && a.read
    ensures forall a :: a in FilteredAlerts(alerts, severity, "all", query) <==>
              a in FilteredAlerts(alerts, severity, "unread", query) || a in FilteredAlerts(alerts, severity, "read", query)
  {
    FilteredExactly(alerts, severity, "unread", query);
    FilteredExactly(alerts, severity, "read", query);
    FilteredExactly(alerts, severity, "all", query);
  }

  /** A non-empty query keeps the alerts whose lower-cased rule name contains the
      lower-cased query. */
  lemma SearchFilter(alerts: seq<Alert>, severity: string, readState: string, query: string)
    requires query != []
    ensures forall a :: a in FilteredAlerts(alerts, severity, readState, query) <==>
              a in FilteredAlerts(alerts, severity, readState, "") && Occurs(ToLower(a.ruleName), ToLower(query))
  {
    FilteredExactly(alerts, severity, readState, query);
    FilteredExactly(alerts, severity, readState, "");
  }

  /** With every filter at its initial value the whole list is shown. */
  lemma NoFilterKeepsAll(alerts: seq<Alert>)
    ensures FilteredAlerts(alerts, "all", "all", "") == alerts
  {
    FilterKeepsAll(alerts, (a: Alert) => Shown(a, "all", "all", ""));
  }

  // ---------------------------------------------------------------- read state

  /** `handleMarkAsRead(id)`: the list with every alert carrying `id` marked read. */
  function MarkedRead(alerts: seq<Alert>, id: string): (r: seq<Alert>)
    ensures |r| == |alerts|
  {
    seq(|alerts|, i requires 0 <= i < |alerts| => if alerts[i].id == id then alerts[i].(read := true) else alerts[i])
  }

  /** `handleMarkAllAsRead`: the list with every alert marked read. */
  function AllRead(alerts: seq<Alert>): (r: seq<Alert>)
    ensures |r| == |alerts|
  {
    seq(|alerts|, i requires 0 <= i < |alerts| => alerts[i].(read := true))
  }

  /** `unreadCount`: how many alerts are still unread. */
  function UnreadCount(alerts: seq<Alert>): (n: nat)
    ensures n <= |alerts|
  {
    |Filter(alerts, (a: Alert) => !a.read)|
  }

  /** Marking one id read only sets `read` on the alerts with that id, and nothing else. */
  lemma MarkedReadEffect(alerts: seq<Alert>, id: string)
    ensures forall i :: 0 <= i < |alerts| ==>
      MarkedRead(alerts, id)[i].read == (alerts[i].read || alerts[i].id == id)
    ensures forall i :: 0 <= i < |alerts| ==>
      MarkedRead(alerts, id)[i].(read := alerts[i].read) == alerts[i]
  {
  }

  lemma MarkedReadIdempotent(alerts: seq<Alert>, id: string)
    ensures MarkedRead(MarkedRead(alerts, id), id) == MarkedRead(alerts, id)
  {
  }

  /** Marking an id that no alert carries changes nothing. */
  lemma MarkedReadAbsent(alerts: seq<Alert>, id: string)
    requires forall i :: 0 <= i < |alerts| ==> alerts[i].id != id
    ensures MarkedRead(alerts, id) == alerts
  {
  }

  /** Marking all read changes only `read`, and leaves no unread alert. */
  lemma AllReadEffect(alerts: seq<Alert>)
    ensures forall i :: 0 <= i < |alerts| ==>
      AllRead(alerts)[i].read && AllRead(alerts)[i].(read := alerts[i].read) == alerts[i]
    ensures UnreadCount(AllRead(alerts)) == 0
  {
    UnreadCountZero(AllRead(alerts));
  }

  /** No alert is unread exactly when the counter is zero. */
  lemma UnreadCountZero(alerts: seq<Alert>)
    ensures UnreadCount(alerts) == 0 <==> forall i :: 0 <= i < |alerts| ==> alerts[i].read
  {
    FilterEmpty(alerts, (a: Alert) => !a.read);
  }

  /** Marking read never raises the unread counter. */
  lemma {:induction false} MarkedReadUnreadCount(alerts: seq<Alert>, id: string)
    ensures UnreadCount(MarkedRead(alerts, id)) <= UnreadCount(alerts)
    decreases |alerts|
  {
    if alerts != [] {
      var rest := alerts[1..];
      MarkedReadUnreadCount(rest, id);
      assert alerts == [alerts[0]] + rest;
      assert MarkedRead(alerts, id) == [MarkedRead(alerts, id)[0]] + MarkedRead(rest, id);
      FilterConcat([alerts[0]], rest, (a: Alert) => !a.read);
      FilterConcat([MarkedRead(alerts, id)[0]], MarkedRead(rest, id), (a: Alert) => !a.read);
    }
  }

  // ---------------------------------------------------------------- CSV export

  /** The eight column titles of the export. */
  function HeaderFields(): seq<string> {
    ["ID", "规则名称", "严重度", "触发时间", "窗口开始", "窗口结束", "次数", "关联通话"]
  }

  /** The eight cells of an alert's row: the count in decimal, the call ids joined by `;`. */
  function RowFields(a: Alert): (fields: seq<string>)
    ensures |fields| == |HeaderFields()|
  {
    [a.id, a.ruleName, SeverityName(a.severity), a.triggeredAt, a.windowStart, a.windowEnd,
     IntToString(a.count), Join(a.callIds, ';')]
  }

  function Row(a: Alert): string {
    Join(RowFields(a), ',')
  }

  /** `handleExport`'s text: the header line, then one line per alert, joined by newlines,
      with no quoting. */
  function Csv(alerts: seq<Alert>): string {
    Join(ExportLines(alerts), '\n')
  }

  /** The header line followed by one row per alert. */
  function ExportLines(alerts: seq<Alert>): seq<string> {
    [Join(HeaderFields(), ',')] + seq(|alerts|, i requires 0 <= i < |alerts| => Row(alerts[i]))
  }

  /** No cell text of the alert holds `c`. */
  predicate FieldsAvoid(a: Alert, c: char) {
    && c !in a.id && c !in a.ruleName && c !in a.triggeredAt
    && c !in a.windowStart && c !in a.windowEnd
    && forall j :: 0 <= j < |a.callIds| ==> c !in a.callIds[j]
  }

  lemma HeaderHasNoNewline()
    ensures '\n' !in Join(HeaderFields(), ',')
  {
    var h := HeaderFields();
    assert forall j :: 0 <= j < |h| ==> '\n' !in h[j];
    JoinChars(h, ',', '\n');
  }

  /** A row holds a character that no cell holds only if it is the separator. */
  lemma RowAvoids(a: Alert, c: char)
    requires FieldsAvoid(a, c) && c != ',' && c != ';' && c != '-' && !IsDigit(c)
    requires c !in SeverityName(a.severity)
    ensures c !in Row(a)
  {
    JoinChars(a.callIds, ';', c);
    var f := RowFields(a);
    assert c !in f[6];
    assert forall j :: 0 <= j < |f| ==> c !in f[j];
    JoinChars(f, ',', c);
  }

  lemma SeverityNameAvoids(s: Severity)
    ensures '\n' !in SeverityName(s) && ',' !in SeverityName(s)
  {
  }

  /** The first line of the export is always the header. */
  lemma CsvStartsWithHeader(alerts: seq<Alert>)
    ensures Split(Csv(alerts), '\n')[0] == Join(HeaderFields(), ',')
  {
    HeaderHasNoNewline();
    FirstPieceOfJoin(ExportLines(alerts), '\n');
  }

  /** When no cell holds a newline, the export splits back into the header and one row
      per alert, in order: 1 + |alerts| lines. */
  lemma CsvLines(alerts: seq<Alert>)
    requires forall i :: 0 <= i < |alerts| ==> FieldsAvoid(alerts[i], '\n')
    ensures Split(Csv(alerts), '\n') == [Join(HeaderFields(), ',')] + seq(|alerts|, i requires 0 <= i < |alerts| => Row(alerts[i]))
    ensures |Split(Csv(alerts), '\n')| == 1 + |alerts|
  {
    var lines := ExportLines(alerts);
    forall k | 0 <= k < |lines| ensures '\n' !in lines[k] {
      if k == 0 {
        HeaderHasNoNewline();
      } else {
        SeverityNameAvoids(alerts[k - 1].severity);
        RowAvoids(alerts[k - 1], '\n');
      }
    }
    SplitJoin(lines, '\n');
  }

  /** When no cell holds a comma, a row splits back into its eight cells; the count and,
      when there are call ids without `;`, the call ids are recovered from them. */
  lemma RowRoundTrip(a: Alert)
    requires FieldsAvoid(a, ',')
    ensures Split(Row(a), ',') == RowFields(a)
    ensures ParseInt(Split(Row(a), ',')[6]) == Some(a.count)
    ensures a.callIds != [] && (forall j :: 0 <= j < |a.callIds| ==> ';' !in a.callIds[j]) ==>
              Split(Split(Row(a), ',')[7], ';') == a.callIds
  {
    var f := RowFields(a);
    JoinChars(a.callIds, ';', ',');
    SeverityNameAvoids(a.severity);
    assert ',' !in f[6];
    assert forall j :: 0 <= j < |f| ==> ',' !in f[j];
    SplitJoin(f, ',');
    IntToStringRoundTrip(a.count);
    if a.callIds != [] && (forall j :: 0 <= j < |a.callIds| ==> ';' !in a.callIds[j]) {
      SplitJoin(a.callIds, ';');
    }
  }

  // ---------------------------------------------------------------- call ids

  /** The call ids shown on an alert's card: `callIds.slice(0, 5)`. */
  function ShownCallIds(ids: seq<string>): (r: seq<string>)
    ensures |r| == if |ids| <= 5 then |ids| else 5
    ensures r == ids[..|r|]
  {
    if |ids| <= 5 then ids else ids[..5]
  }

  /** The "+N 更多" note, present only when more than five call ids exist. */
  function MoreNote(ids: seq<string>): (r: Option<string>)
    ensures r.Some? <==> |ids| > 5
  {
    if |ids| > 5 then Some("+" + IntToString(|ids| - 5) + " 更多") else None
  }

  /** The shown ids and the number in the note account for every call id. */
  lemma CallIdsAccounted(ids: seq<string>)
    ensures |ids| > 5 ==> ShownCallIds(ids) + ids[5..] == ids
    ensures |ids| > 5 ==> MoreNote(ids).value == "+" + IntToString(|ids| - |ShownCallIds(ids)|) + " 更多"
    ensures |ids| <= 5 ==> ShownCallIds(ids) == ids && MoreNote(ids) == None
  {
  }

  /** The note's number reads back as the count of hidden call ids. */
  lemma MoreNoteCount(ids: seq<string>)
    requires |ids| > 5
    ensures ParseInt(MoreNote(ids).value[1..|MoreNote(ids).value| - 3]) == Some(|ids| - 5)
  {
    var digits := IntToString(|ids| - 5);
    assert MoreNote(ids).value[1..|MoreNote(ids).value| - 3] == digits;
    IntToStringRoundTrip(|ids| - 5);
  }

  // ---------------------------------------------------------------- the screen's state

  /** The alert list screen: the alerts and the three filter controls. */
  class AlertList {
    var alerts: seq<Alert>
    var filterSeverity: string
    var filterRead: string
    var searchQuery: string

    constructor ()
      ensures alerts == InitialAlerts()
      ensures filterSeverity == "all" && filterRead == "all" && searchQuery == ""
    {
      alerts := InitialAlerts();
      filterSeverity := "all";
      filterRead := "all";
      searchQuery := "";
    }

    function Filtered(): seq<Alert>
      reads this
    {
      FilteredAlerts(alerts, filterSeverity, filterRead, searchQuery)
    }

    method MarkAsRead(id: string)
      modifies this
      ensures alerts == MarkedRead(old(alerts), id)
      ensures filterSeverity == old(filterSeverity) && filterRead == old(filterRead) && searchQuery == old(searchQuery)
    {
      alerts := MarkedRead(alerts, id);
    }

    method MarkAllAsRead()
      modifies this
      ensures alerts == AllRead(old(alerts))
      ensures UnreadCount(alerts) == 0
      ensures filterSeverity == old(filterSeverity) && filterRead == old(filterRead) && searchQuery == old(searchQuery)
    {
      alerts := AllRead(alerts);
      AllReadEffect(old(alerts));
    }

    /** The text the export button downloads. */
    method Export() returns (csv: string)
      ensures csv == Csv(Filtered())
      ensures Split(csv, '\n')[0] == Join(HeaderFields(), ',')
    {
      csv := Csv(Filtered());
      CsvStartsWithHeader(Filtered());
    }
  }
}
