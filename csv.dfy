/** The rows of the CSV export and the name of its file (csv.go:10-52). */
module Csv {
  import opened Types
  import Strconv
  import opened Seqs

  /** The header row: one column name per field of a data row. */
  function Header(): (h: seq<string>)
    ensures forall d, id, title, q :: |Row(d, id, title, q)| == |h|
  {
    ["accountId", "guid", "name", "permalink", "createdBy", "chartId", "chartName", "nrqlAccountId", "nrqlQuery"]
  }

  /** `fmt.Sprintf("dashboards_%d.csv", accountId)`. */
  function FileName(accountId: int): string {
    "dashboards_" + Strconv.FormatInt(accountId) + ".csv"
  }

  /** The export file is named after the account, and the name gives the account back. */
  lemma FileNameNamesAccount(accountId: int)
    requires Strconv.InIntRange(accountId)
    ensures var name := FileName(accountId);
      && |name| > |"dashboards_"| + |".csv"|
      && name[..|"dashboards_"|] == "dashboards_"
      && name[|name| - |".csv"|..] == ".csv"
      && Strconv.Atoi(name[|"dashboards_"|..|name| - |".csv"|]) == accountId
  {
    var name := FileName(accountId);
    var digits := Strconv.FormatInt(accountId);
    assert name[|"dashboards_"|..|name| - |".csv"|] == digits;
    Strconv.AtoiFormatInt(accountId);
  }

  /** One data row: the dashboard's fields, the widget id and title, the query's account and text. */
  function Row(d: Dashboard, id: int, title: string, q: NrqlQuery): seq<string> {
    [Strconv.FormatInt(d.accountId), d.guid, d.name, d.permalink, d.createdBy,
     Strconv.FormatInt(id), title, Strconv.FormatInt(q.accountId), q.query]
  }

  /** The header has nine columns. */
  lemma HeaderWidth()
    ensures |Header()| == 9
  {
  }

  /** Every data row has the nine header columns: the three numbers in decimal (read back by
      `Atoi` they give the numbers again), everything else verbatim. */
  lemma RowColumns(d: Dashboard, id: int, title: string, q: NrqlQuery)
    requires Strconv.InIntRange(d.accountId) && Strconv.InIntRange(id) && Strconv.InIntRange(q.accountId)
    ensures var r := Row(d, id, title, q);
      && |r| == |Header()| == 9
      && Strconv.Atoi(r[0]) == d.accountId
      && r[1] == d.guid && r[2] == d.name && r[3] == d.permalink && r[4] == d.createdBy
      && Strconv.Atoi(r[5]) == id && r[6] == title
      && Strconv.Atoi(r[7]) == q.accountId && r[8] == q.query
  {
    HeaderWidth();
    var r := Row(d, id, title, q);
    assert r[0] == Strconv.FormatInt(d.accountId) && r[5] == Strconv.FormatInt(id);
    assert r[7] == Strconv.FormatInt(q.accountId);
    Strconv.AtoiFormatInt(d.accountId);
    Strconv.AtoiFormatInt(id);
    Strconv.AtoiFormatInt(q.accountId);
  }

  /** `dashboard.WidgetMap[widgetId]`: the stored widget, or Go's zero widget (no queries). */
  function LookupWidget(d: Dashboard, id: int): Widget {
    if id in d.widgetMap then d.widgetMap[id] else Widget(0, "", "", [])
  }

  /** The rows of one widget id: one per query of the widget, in list order. */
  function WidgetRows(d: Dashboard, id: int): seq<seq<string>> {
    var w := LookupWidget(d, id);
    seq(|w.nrqlQueries|, k requires 0 <= k < |w.nrqlQueries| => Row(d, id, w.title, w.nrqlQueries[k]))
  }

  /** The rows of the ids `ids` of a dashboard, id after id. */
  function IdsRows(d: Dashboard, ids: seq<int>): seq<seq<string>> {
    Concat(RowsOf(d), ids)
  }

  /** `WidgetRows` of dashboard `d`, as a function of the id. */
  function RowsOf(d: Dashboard): int -> seq<seq<string>> {
    id => WidgetRows(d, id)
  }

  function DashboardRows(d: Dashboard): seq<seq<string>> {
    IdsRows(d, d.widgetIds)
  }

  /** The number of queries over the ids `ids`, a repeated id counted each time. */
  function QueryCount(d: Dashboard, ids: seq<int>): nat
    decreases |ids|
  {
    if ids == [] then 0 else QueryCount(d, ids[..|ids| - 1]) + |LookupWidget(d, ids[|ids| - 1]).nrqlQueries|
  }

  /** A dashboard contributes one row per query of each id in its list, nine columns each. */
  lemma {:induction false} IdsRowsShape(d: Dashboard, ids: seq<int>)
    ensures |IdsRows(d, ids)| == QueryCount(d, ids)
    ensures forall r | r in IdsRows(d, ids) :: |r| == 9
    decreases |ids|
  {
    if ids != [] {
      IdsRowsShape(d, ids[..|ids| - 1]);
    }
  }

  /** The k-th row of an id is the row of the k-th query of the widget stored under it. */
  lemma WidgetRowsAt(d: Dashboard, id: int, k: nat)
    requires k < |LookupWidget(d, id).nrqlQueries|
    ensures var w := LookupWidget(d, id);
      |WidgetRows(d, id)| == |w.nrqlQueries| && WidgetRows(d, id)[k] == Row(d, id, w.title, w.nrqlQueries[k])
  {
  }

  lemma {:induction false} RowsCount(d: Dashboard, ids: seq<int>)
    ensures LenSum(RowsOf(d), ids) == QueryCount(d, ids)
    decreases |ids|
  {
    if ids != [] {
      RowsCount(d, ids[..|ids| - 1]);
      assert |RowsOf(d)(ids[|ids| - 1])| == |LookupWidget(d, ids[|ids| - 1]).nrqlQueries|;
    }
  }

  /** Rows follow the id list, and within one id the widget's queries in list order: the k-th
      query of the i-th id is the row after the rows of all earlier ids and earlier queries. */
  lemma IdsRowsAt(d: Dashboard, ids: seq<int>, i: nat, k: nat)
    requires i < |ids| && k < |LookupWidget(d, ids[i]).nrqlQueries|
    ensures QueryCount(d, ids[..i]) + k < |IdsRows(d, ids)|
    ensures var w := LookupWidget(d, ids[i]);
      IdsRows(d, ids)[QueryCount(d, ids[..i]) + k] == Row(d, ids[i], w.title, w.nrqlQueries[k])
  {
    assert RowsOf(d)(ids[i]) == WidgetRows(d, ids[i]);
    WidgetRowsAt(d, ids[i], k);
    ConcatIndex(RowsOf(d), ids, i, k);
    RowsCount(d, ids[..i]);
  }

  /** The rows for one more id of the list are that id's rows. */
  lemma IdsRowsStep(d: Dashboard, ids: seq<int>, j: nat)
    requires j < |ids|
    ensures IdsRows(d, ids[..j + 1]) == IdsRows(d, ids[..j]) + WidgetRows(d, ids[j])
  {
    assert ids[..j + 1][..j] == ids[..j];
    assert RowsOf(d)(ids[j]) == WidgetRows(d, ids[j]);
  }

  /** A dashboard whose ids have no queries, in particular one without ids, adds no row. */
  lemma {:induction false} NoQueriesNoRows(d: Dashboard, ids: seq<int>)
    requires forall i | 0 <= i < |ids| :: LookupWidget(d, ids[i]).nrqlQueries == []
    ensures IdsRows(d, ids) == []
    decreases |ids|
  {
    if ids != [] {
      NoQueriesNoRows(d, ids[..|ids| - 1]);
    }
  }

  /** The data rows for the dashboards named by `order`, one dashboard after another. */
  function ExportRows(dm: map<string, Dashboard>, order: seq<string>): seq<seq<string>>
    requires forall i | 0 <= i < |order| :: order[i] in dm
    decreases |order|
  {
    if order == [] then []
    else ExportRows(dm, order[..|order| - 1]) + DashboardRows(dm[order[|order| - 1]])
  }

  /** One more dashboard adds its rows after those of the dashboards before it. */
  lemma ExportStep(dm: map<string, Dashboard>, order: seq<string>, g: string)
    requires (forall i | 0 <= i < |order| :: order[i] in dm) && g in dm
    ensures forall i | 0 <= i < |order + [g]| :: (order + [g])[i] in dm
    ensures ExportRows(dm, order + [g]) == ExportRows(dm, order) + DashboardRows(dm[g])
  {
    assert (order + [g])[..|order|] == order;
  }

  /** The number of queries over the dashboards named by `order`. */
  function ExportCount(dm: map<string, Dashboard>, order: seq<string>): nat
    requires forall i | 0 <= i < |order| :: order[i] in dm
    decreases |order|
  {
    if order == [] then 0
    else ExportCount(dm, order[..|order| - 1]) + QueryCount(dm[order[|order| - 1]], dm[order[|order| - 1]].widgetIds)
  }

  /** The export has one nine-column row per (dashboard, listed id, query). */
  lemma {:induction false} ExportRowsShape(dm: map<string, Dashboard>, order: seq<string>)
    requires forall i | 0 <= i < |order| :: order[i] in dm
    ensures |ExportRows(dm, order)| == ExportCount(dm, order)
    ensures forall r | r in ExportRows(dm, order) :: |r| == 9
    decreases |order|
  {
    if order != [] {
      var g := order[|order| - 1];
      ExportRowsShape(dm, order[..|order| - 1]);
      IdsRowsShape(dm[g], dm[g].widgetIds);
    }
  }

  /** Whether `order` lists every key of `dm` exactly once. */
  predicate EnumeratesKeys(dm: map<string, Dashboard>, order: seq<string>) {
    && (forall i | 0 <= i < |order| :: order[i] in dm)
    && (forall g | g in dm :: g in order)
    && (forall i, j | 0 <= i < j < |order| :: order[i] != order[j])
  }
}
