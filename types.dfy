/** Parsed forms of the values the exporter handles (graphql.go:22-116). JSON decoding
    is not modelled: a response is already one of these datatypes. */
module Types {

  datatype Option<+T> = None | Some(value: T)

  /** Number of detail workers, and therefore of completion sentinels the merge waits for. */
  const GrQlParallel: nat := 10

  datatype NrqlQuery = NrqlQuery(accountId: int, query: string)

  datatype Tag = Tag(key: string, values: seq<string>)

  /** One result of the listing query. */
  datatype Entity = Entity(accountId: int, guid: string, name: string, permalink: string, tags: seq<Tag>)

  /** One response of the listing query: its entities and the continuation cursor (None is JSON null). */
  datatype ListingPage = ListingPage(entities: seq<Entity>, nextCursor: Option<string>)

  /** The visualisation slots of a widget's configuration. */
  datatype Configuration = Configuration(
    area: seq<NrqlQuery>, bar: seq<NrqlQuery>, billboard: seq<NrqlQuery>, line: seq<NrqlQuery>,
    markdown: seq<NrqlQuery>, pie: seq<NrqlQuery>, table: seq<NrqlQuery>)

  datatype RawWidget = RawWidget(configuration: Configuration, id: string, title: string)

  datatype DetailPage = DetailPage(guid: string, name: string, widgets: seq<RawWidget>)

  datatype GraphQlError = GraphQlError(message: string)

  /** One response of the detail query: a body that did not decode, or the decoded errors and pages. */
  datatype DetailResponse =
    | Malformed
    | Parsed(errors: seq<GraphQlError>, pages: seq<DetailPage>)

  /** A normalised widget; one with an empty `guid` is the end-of-work marker. */
  datatype Widget = Widget(id: int, title: string, guid: string, nrqlQueries: seq<NrqlQuery>)

  datatype Dashboard = Dashboard(
    accountId: int, guid: string, name: string, permalink: string,
    createdBy: string, isPage: bool,
    widgetMap: map<int, Widget>, widgetIds: seq<int>)

  /** What a worker sends when it has drained its input: Go's zero `Widget{}`. */
  const Sentinel: Widget := Widget(0, "", "", [])

  predicate IsSentinel(w: Widget) {
    |w.guid| == 0
  }

  /** A dashboard stored under `g`: it carries the GUID `g`, its id list holds exactly the keys
      of its widget map, and each stored widget carries its own key as id and `g` as GUID. */
  ghost predicate DashboardWellFormed(g: string, d: Dashboard) {
    && d.guid == g
    && (forall id :: id in d.widgetMap <==> id in d.widgetIds)
    && (forall id | id in d.widgetMap :: d.widgetMap[id].id == id && d.widgetMap[id].guid == g)
  }

  ghost predicate WellFormed(dm: map<string, Dashboard>) {
    forall g | g in dm :: DashboardWellFormed(g, dm[g])
  }
}
