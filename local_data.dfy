/** The exporter's state (main.go:11-22) and the stages that update it in place:
    `getDashboards`, the aggregating half of `getDashboardDetails`, and `writeCSV`. */
module Pipeline {
  import opened Types
  import opened Listing
  import opened Merge
  import Sorting
  import Strconv
  import Csv
  import Seqs

  class LocalData {
    var accountId: int
    var dashboardMap: map<string, Dashboard>
    var parentGuids: seq<string>

    ghost predicate Valid()
      reads this
    {
      WellFormed(dashboardMap)
    }

    /** The state `makeClient` leaves: an empty dashboard map and no parent GUIDs yet. */
    constructor (accountId: int)
      ensures Valid()
      ensures this.accountId == accountId && dashboardMap == map[] && parentGuids == []
    {
      this.accountId := accountId;
      dashboardMap := map[];
      parentGuids := [];
    }

    /** `getDashboards`, where `pages[k]` is the decoded response to the k-th listing request.
        It reads responses up to the first without a cursor, sends each later request with the
        previous response's cursor (`requests` lists the cursors sent), stores page entities in
        the map and appends the GUIDs of the others to `parentGuids`. */
    method GetDashboards(pages: seq<ListingPage>) returns (ghost requests: seq<string>)
      requires Valid()
      modifies this`dashboardMap, this`parentGuids
      ensures Valid()
      ensures |requests| == PagesFetched(pages)
      ensures requests == CursorsSent(pages[..|requests|])
      ensures dashboardMap == ListedMap(old(dashboardMap), AllEntities(pages[..|requests|]))
      ensures parentGuids == old(parentGuids) + ListedParents(AllEntities(pages[..|requests|]))
    {
      ghost var dm0, pg0 := dashboardMap, parentGuids;
      ghost var read: seq<ListingPage> := [];
      var cursor := "";
      var i := 0;
      requests := [];
      while i < |pages|
        invariant i <= |pages| && read == pages[..i]
        invariant PagesFetched(pages) == i + PagesFetched(pages[i..])
        invariant cursor == if i == 0 then "" else CursorAfter(pages[i - 1])
        invariant requests == CursorsSent(read)
        invariant dashboardMap == ListedMap(dm0, AllEntities(read))
        invariant parentGuids == pg0 + ListedParents(AllEntities(read))
      {
        var page := pages[i];
        FetchStep(pages, i);
        ReadStep(read, page);
        StorePage(page.entities, AllEntities(read), dm0, pg0);
        requests := requests + [cursor];
        read := read + [page];
        i := i + 1;
        if page.nextCursor.None? {
          break;
        }
        cursor := page.nextCursor.value;
      }
      assert i == |pages| ==> pages[i..] == [];
      ListedMapWellFormed(dm0, AllEntities(read));
    }

    /** Storing the entities of the next response extends what the listing loop has stored. */
    method StorePage(entities: seq<Entity>, ghost before: seq<Entity>, ghost dm0: map<string, Dashboard>, ghost pg0: seq<string>)
      requires dashboardMap == ListedMap(dm0, before)
      requires parentGuids == pg0 + ListedParents(before)
      modifies this`dashboardMap, this`parentGuids
      ensures dashboardMap == ListedMap(dm0, before + entities)
      ensures parentGuids == pg0 + ListedParents(before + entities)
    {
      ListedMapAppend(dm0, before, entities);
      ListedParentsAppend(before, entities);
      Seqs.AppendAssoc(pg0, ListedParents(before), ListedParents(entities));
      StoreEntities(entities);
    }

    /** The entity loop of `getDashboards` for one response. */
    method StoreEntities(entities: seq<Entity>)
      modifies this`dashboardMap, this`parentGuids
      ensures dashboardMap == ListedMap(old(dashboardMap), entities)
      ensures parentGuids == old(parentGuids) + ListedParents(entities)
    {
      for j := 0 to |entities|
        invariant dashboardMap == ListedMap(old(dashboardMap), entities[..j])
        invariant parentGuids == old(parentGuids) + ListedParents(entities[..j])
      {
        var entity := entities[j];
        assert entities[..j + 1][..j] == entities[..j];
        var dashboard := ParseEntity(entity);
        dashboard := dashboard.(widgetMap := map[]);
        if dashboard.isPage {
          dashboardMap := dashboardMap[entity.guid := dashboard];
        } else {
          parentGuids := parentGuids + [entity.guid];
        }
      }
      assert entities[..|entities|] == entities;
    }

    /** The aggregator of `getDashboardDetails` over the widgets the workers emit, in the order
        it receives them: it reads up to the `GrQlParallel`-th end-of-work marker (`consumed`
        of them), merges what it read, counts the merged widgets, then sorts every id list. */
    method GetDashboardDetails(outputs: seq<Widget>) returns (widgets: nat, ghost consumed: nat)
      requires Valid()
      modifies this`dashboardMap
      ensures Valid()
      ensures consumed == SentinelCut(outputs, GrQlParallel)
      ensures dashboardMap == SortPass(MergeAll(old(dashboardMap), outputs[..consumed]))
      ensures widgets == MergedCount(old(dashboardMap), outputs[..consumed])
    {
      widgets, consumed := Aggregate(outputs);
      SortWidgetIds();
    }

    /** The sentinel-counting loop: one round per worker, each round reading until a marker. */
    method Aggregate(outputs: seq<Widget>) returns (widgets: nat, ghost consumed: nat)
      requires Valid()
      modifies this`dashboardMap
      ensures Valid()
      ensures consumed == SentinelCut(outputs, GrQlParallel)
      ensures dashboardMap == MergeAll(old(dashboardMap), outputs[..consumed])
      ensures widgets == MergedCount(old(dashboardMap), outputs[..consumed])
    {
      ghost var dm0 := dashboardMap;
      assert outputs[..0] == [];
      widgets := 0;
      var pos := 0;
      for i := 0 to GrQlParallel
        invariant pos <= |outputs|
        invariant CutFrom(outputs, pos, GrQlParallel - i) == SentinelCut(outputs, GrQlParallel)
        invariant dashboardMap == MergeAll(dm0, outputs[..pos])
        invariant widgets == MergedCount(dm0, outputs[..pos])
      {
        ghost var start := pos;
        var merged;
        pos, merged := ReadRound(outputs, pos, dm0);
        widgets := widgets + merged;
        RoundCut(outputs, start, pos, GrQlParallel - i);
      }
      consumed := pos;
      MergeAllWellFormed(dm0, outputs[..pos]);
    }

    /** One round of the aggregator: it reads widgets from `start` up to and including the next
        marker, or to the end, merging each one whose dashboard exists. */
    method ReadRound(outputs: seq<Widget>, start: nat, ghost dm0: map<string, Dashboard>)
        returns (pos: nat, merged: nat)
      requires start <= |outputs|
      requires dashboardMap == MergeAll(dm0, outputs[..start])
      modifies this`dashboardMap
      ensures start <= pos <= |outputs|
      ensures forall k | start <= k < pos - 1 :: !IsSentinel(outputs[k])
      ensures pos == |outputs| || (pos > start && IsSentinel(outputs[pos - 1]))
      ensures dashboardMap == MergeAll(dm0, outputs[..pos])
      ensures MergedCount(dm0, outputs[..pos]) == MergedCount(dm0, outputs[..start]) + merged
    {
      pos, merged := start, 0;
      while pos < |outputs|
        invariant start <= pos <= |outputs|
        invariant forall k | start <= k < pos :: !IsSentinel(outputs[k])
        invariant dashboardMap == MergeAll(dm0, outputs[..pos])
        invariant MergedCount(dm0, outputs[..pos]) == MergedCount(dm0, outputs[..start]) + merged
      {
        var output := outputs[pos];
        MergeStep(dm0, outputs, pos);
        pos := pos + 1;
        if |output.guid| == 0 {
          break;
        }
        if output.guid !in dashboardMap {
          continue;
        }
        var dashboard := dashboardMap[output.guid];
        dashboard := dashboard.(widgetMap := dashboard.widgetMap[output.id := output]);
        dashboard := dashboard.(widgetIds := dashboard.widgetIds + [output.id]);
        dashboardMap := dashboardMap[output.guid := dashboard];
        merged := merged + 1;
      }
    }

    /** The final pass: every id list sorted ascending, stored back under the dashboard's GUID. */
    method SortWidgetIds()
      requires Valid()
      modifies this`dashboardMap
      ensures Valid()
      ensures dashboardMap == SortPass(old(dashboardMap))
    {
      ghost var merged := dashboardMap;
      var keys := dashboardMap.Keys;
      while keys != {}
        invariant keys <= merged.Keys && dashboardMap.Keys == merged.Keys
        invariant forall g | g in dashboardMap ::
                    dashboardMap[g] == if g in keys then merged[g] else SortPass(merged)[g]
        decreases keys
      {
        var g :| g in keys;
        var dashboard := dashboardMap[g];
        assert DashboardWellFormed(g, merged[g]);
        dashboard := dashboard.(widgetIds := Sorting.SortInts(dashboard.widgetIds));
        dashboardMap := dashboardMap[dashboard.guid := dashboard];
        keys := keys - {g};
      }
      assert dashboardMap == SortPass(merged);
      SortPassWellFormed(merged);
    }

    /** `writeCSV` up to the writer: the file name, the header and one row per (dashboard, id in
        its list, query), dashboards in an unspecified order (`order`), and the entry count it
        logs. */
    method WriteCsv() returns (fileName: string, rows: seq<seq<string>>, entries: int, ghost order: seq<string>)
      ensures fileName == Csv.FileName(accountId)
      ensures Csv.EnumeratesKeys(dashboardMap, order)
      ensures rows == [Csv.Header()] + Csv.ExportRows(dashboardMap, order)
      ensures entries == |rows| - 1
    {
      fileName := "dashboards_" + Strconv.FormatInt(accountId) + ".csv";
      rows := [Csv.Header()];
      order := [];
      var remaining := dashboardMap.Keys;
      while remaining != {}
        invariant remaining <= dashboardMap.Keys
        invariant forall i | 0 <= i < |order| :: order[i] in dashboardMap && order[i] !in remaining
        invariant forall g | g in dashboardMap :: g in order || g in remaining
        invariant forall i, j | 0 <= i < j < |order| :: order[i] != order[j]
        invariant rows == [Csv.Header()] + Csv.ExportRows(dashboardMap, order)
        decreases remaining
      {
        var g :| g in remaining;
        var dashboard := dashboardMap[g];
        Csv.ExportStep(dashboardMap, order, g);
        Seqs.AppendAssoc([Csv.Header()], Csv.ExportRows(dashboardMap, order), Csv.DashboardRows(dashboard));
        rows := AppendDashboardRows(rows, dashboard);
        order := order + [g];
        remaining := remaining - {g};
      }
      entries := |rows| - 1;
    }
  }

  /** The two inner loops of `writeCSV` for one dashboard: for each id in its list, the rows of
      the widget stored under it. */
  method AppendDashboardRows(rows: seq<seq<string>>, dashboard: Dashboard) returns (result: seq<seq<string>>)
    ensures result == rows + Csv.DashboardRows(dashboard)
  {
    result := rows;
    for j := 0 to |dashboard.widgetIds|
      invariant result == rows + Csv.IdsRows(dashboard, dashboard.widgetIds[..j])
    {
      var widgetId := dashboard.widgetIds[j];
      var widget := Csv.LookupWidget(dashboard, widgetId);
      Csv.IdsRowsStep(dashboard, dashboard.widgetIds, j);
      Seqs.AppendAssoc(rows, Csv.IdsRows(dashboard, dashboard.widgetIds[..j]), Csv.WidgetRows(dashboard, widgetId));
      result := AppendWidgetRows(result, dashboard, widgetId, widget);
    }
    assert dashboard.widgetIds[..|dashboard.widgetIds|] == dashboard.widgetIds;
  }

  /** The innermost loop of `writeCSV`: one row per query of the widget stored under `widgetId`. */
  method AppendWidgetRows(rows: seq<seq<string>>, dashboard: Dashboard, widgetId: int, widget: Widget)
      returns (result: seq<seq<string>>)
    requires widget == Csv.LookupWidget(dashboard, widgetId)
    ensures result == rows + Csv.WidgetRows(dashboard, widgetId)
  {
    result := rows;
    ghost var target := Csv.WidgetRows(dashboard, widgetId);
    for k := 0 to |widget.nrqlQueries|
      invariant result == rows + target[..k]
    {
      var query := widget.nrqlQueries[k];
      Csv.WidgetRowsAt(dashboard, widgetId, k);
      assert target[..k + 1] == target[..k] + [target[k]];
      Seqs.AppendAssoc(rows, target[..k], [target[k]]);
      result := result + [Csv.Row(dashboard, widgetId, widget.title, query)];
    }
    assert target[..|widget.nrqlQueries|] == target;
  }
}
