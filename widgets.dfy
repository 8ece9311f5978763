/** Normalisation of raw widgets and the decomposition of one detail response into the
    widgets a worker emits (graphql.go:230-253, 283-318). */
module Widgets {
  import opened Types
  import Strconv

  /** The slots `parseWidget` consults, in its priority order; markdown is not among them. */
  function Slots(c: Configuration): (s: seq<seq<NrqlQuery>>)
    ensures |s| == 6
  {
    [c.area, c.bar, c.billboard, c.line, c.pie, c.table]
  }

  /** `parseWidget`: the id read with `Atoi`, the title, no GUID yet, and the queries of the
      first non-empty slot. */
  function ParseWidget(raw: RawWidget): Widget {
    var c := raw.configuration;
    var queries :=
      if |c.area| > 0 then c.area
      else if |c.bar| > 0 then c.bar
      else if |c.billboard| > 0 then c.billboard
      else if |c.line| > 0 then c.line
      else if |c.pie| > 0 then c.pie
      else if |c.table| > 0 then c.table
      else [];
    Widget(Strconv.Atoi(raw.id), raw.title, "", queries)
  }

  /** The queries of a normalised widget are those of the first non-empty slot in the order
      area, bar, billboard, line, pie, table, and empty exactly when every slot is; the title is
      the raw title, the id the raw id read as a decimal integer (0 when it does not parse),
      and no GUID is set yet. */
  lemma ParseWidgetPriority(raw: RawWidget)
    ensures var w := ParseWidget(raw);
      w.title == raw.title && w.guid == "" && w.id == Strconv.Atoi(raw.id) && Strconv.InIntRange(w.id)
    ensures ParseWidget(raw).nrqlQueries == [] <==> forall k | 0 <= k < 6 :: Slots(raw.configuration)[k] == []
    ensures forall k | 0 <= k < 6 && Slots(raw.configuration)[k] != [] &&
                       (forall j | 0 <= j < k :: Slots(raw.configuration)[j] == []) ::
              ParseWidget(raw).nrqlQueries == Slots(raw.configuration)[k]
  {
    var s := Slots(raw.configuration);
    forall k | 0 <= k < 6 && s[k] != [] && (forall j | 0 <= j < k :: s[j] == [])
      ensures ParseWidget(raw).nrqlQueries == s[k]
    {
      if k > 0 { assert s[0] == []; }
      if k > 1 { assert s[1] == []; }
      if k > 2 { assert s[2] == []; }
      if k > 3 { assert s[3] == []; }
      if k > 4 { assert s[4] == []; }
    }
    if ParseWidget(raw).nrqlQueries == [] {
      forall k | 0 <= k < 6 ensures s[k] == [] {
        assert k == 0 || k == 1 || k == 2 || k == 3 || k == 4 || k == 5;
      }
    } else {
      var c := raw.configuration;
      var k := if c.area != [] then 0 else if c.bar != [] then 1 else if c.billboard != [] then 2
               else if c.line != [] then 3 else if c.pie != [] then 4 else 5;
      assert s[k] != [];
    }
  }

  /** The widgets of `raws` that resolve to at least one query, tagged with the page GUID `guid`. */
  function PageWidgets(guid: string, raws: seq<RawWidget>): seq<Widget>
    decreases |raws|
  {
    if raws == [] then []
    else
      var w := ParseWidget(raws[|raws| - 1]);
      PageWidgets(guid, raws[..|raws| - 1]) + (if |w.nrqlQueries| == 0 then [] else [w.(guid := guid)])
  }

  /** The widgets of all pages, page by page. */
  function PagesWidgets(pages: seq<DetailPage>): seq<Widget>
    decreases |pages|
  {
    if pages == [] then []
    else PagesWidgets(pages[..|pages| - 1]) + PageWidgets(pages[|pages| - 1].guid, pages[|pages| - 1].widgets)
  }

  /** What a worker emits for one GUID: nothing for an undecodable body or for a response that
      reports any error ("Not Found" or another); otherwise the widgets of every page. */
  function Decompose(resp: DetailResponse): seq<Widget> {
    match resp
    case Malformed => []
    case Parsed(errors, pages) => if |errors| > 0 then [] else PagesWidgets(pages)
  }

  function PageGuidSet(pages: seq<DetailPage>): set<string> {
    set p | p in pages :: p.guid
  }

  /** The raw widgets of `raws` that resolve to at least one query, in order. */
  function Resolving(raws: seq<RawWidget>): seq<RawWidget>
    decreases |raws|
  {
    if raws == [] then []
    else
      var r := raws[|raws| - 1];
      Resolving(raws[..|raws| - 1]) + (if ParseWidget(r).nrqlQueries == [] then [] else [r])
  }

  /** `Resolving` keeps each raw widget with a query as often as it occurs, and drops the rest. */
  lemma {:induction false} ResolvingFilter(raws: seq<RawWidget>)
    ensures forall r :: multiset(Resolving(raws))[r] ==
              if ParseWidget(r).nrqlQueries != [] then multiset(raws)[r] else 0
    decreases |raws|
  {
    if raws != [] {
      var front, r := raws[..|raws| - 1], raws[|raws| - 1];
      ResolvingFilter(front);
      assert raws == front + [r];
    }
  }

  /** Every widget emitted for a page has queries, carries that page's GUID and is the
      normalised form of one of the page's raw widgets. */
  lemma {:induction false} PageWidgetsShape(guid: string, raws: seq<RawWidget>)
    ensures forall w | w in PageWidgets(guid, raws) :: w.nrqlQueries != [] && w.guid == guid
    ensures forall w | w in PageWidgets(guid, raws) ::
              exists raw | raw in raws && ParseWidget(raw).nrqlQueries != [] :: w == ParseWidget(raw).(guid := guid)
    decreases |raws|
  {
    if raws != [] {
      var front, r := raws[..|raws| - 1], raws[|raws| - 1];
      PageWidgetsShape(guid, front);
      assert raws == front + [r];
      forall w | w in PageWidgets(guid, raws)
        ensures exists raw | raw in raws && ParseWidget(raw).nrqlQueries != [] :: w == ParseWidget(raw).(guid := guid)
      {
        if w in PageWidgets(guid, front) {
          var raw :| raw in front && ParseWidget(raw).nrqlQueries != [] && w == ParseWidget(raw).(guid := guid);
          assert raw in raws;
        } else {
          assert r in raws;
        }
      }
    }
  }

  /** The widgets emitted for a page are, one for one and in order, the raw widgets that resolve
      to a query, normalised and tagged with the page's GUID. */
  lemma {:induction false} PageWidgetsExact(guid: string, raws: seq<RawWidget>)
    ensures |PageWidgets(guid, raws)| == |Resolving(raws)|
    ensures forall i | 0 <= i < |Resolving(raws)| ::
              PageWidgets(guid, raws)[i] == ParseWidget(Resolving(raws)[i]).(guid := guid)
    decreases |raws|
  {
    if raws != [] {
      PageWidgetsExact(guid, raws[..|raws| - 1]);
    }
  }

  /** Conversely, every raw widget that resolves to some query is emitted, tagged with the page GUID. */
  lemma {:induction false} PageWidgetsComplete(guid: string, raws: seq<RawWidget>, raw: RawWidget)
    requires raw in raws && ParseWidget(raw).nrqlQueries != []
    ensures ParseWidget(raw).(guid := guid) in PageWidgets(guid, raws)
    decreases |raws|
  {
    var front := raws[..|raws| - 1];
    assert raws == front + [raws[|raws| - 1]];
    if raw != raws[|raws| - 1] {
      PageWidgetsComplete(guid, front, raw);
    }
  }

  /** Every widget emitted for a response has queries and is the normalised form of a raw
      widget of one of its pages, tagged with that page's GUID. */
  lemma {:induction false} PagesWidgetsShape(pages: seq<DetailPage>)
    ensures forall w | w in PagesWidgets(pages) :: w.nrqlQueries != [] && w.guid in PageGuidSet(pages)
    ensures forall w | w in PagesWidgets(pages) ::
              exists p, raw | p in pages && raw in p.widgets && ParseWidget(raw).nrqlQueries != [] ::
                w == ParseWidget(raw).(guid := p.guid)
    decreases |pages|
  {
    if pages != [] {
      var front, p := pages[..|pages| - 1], pages[|pages| - 1];
      PagesWidgetsShape(front);
      PageWidgetsShape(p.guid, p.widgets);
      assert pages == front + [p];
      assert PageGuidSet(pages) == PageGuidSet(front) + {p.guid};
      forall w | w in PagesWidgets(pages)
        ensures exists q, raw | q in pages && raw in q.widgets && ParseWidget(raw).nrqlQueries != [] ::
                  w == ParseWidget(raw).(guid := q.guid)
      {
        if w in PagesWidgets(front) {
          var q, raw :| q in front && raw in q.widgets && ParseWidget(raw).nrqlQueries != [] &&
                        w == ParseWidget(raw).(guid := q.guid);
          assert q in pages;
        } else {
          assert p in pages;
        }
      }
    }
  }

  /** The number of raw widgets with a query over all pages, a repeated one counted each time. */
  function ResolvingCount(pages: seq<DetailPage>): nat
    decreases |pages|
  {
    if pages == [] then 0 else ResolvingCount(pages[..|pages| - 1]) + |Resolving(pages[|pages| - 1].widgets)|
  }

  /** A response emits one widget per raw widget with a query, over all its pages. */
  lemma {:induction false} PagesWidgetsCount(pages: seq<DetailPage>)
    ensures |PagesWidgets(pages)| == ResolvingCount(pages)
    decreases |pages|
  {
    if pages != [] {
      var p := pages[|pages| - 1];
      PagesWidgetsCount(pages[..|pages| - 1]);
      PageWidgetsExact(p.guid, p.widgets);
    }
  }

  lemma {:induction false} PagesWidgetsComplete(pages: seq<DetailPage>, p: DetailPage, raw: RawWidget)
    requires p in pages && raw in p.widgets && ParseWidget(raw).nrqlQueries != []
    ensures ParseWidget(raw).(guid := p.guid) in PagesWidgets(pages)
    decreases |pages|
  {
    var front := pages[..|pages| - 1];
    assert pages == front + [pages[|pages| - 1]];
    if p == pages[|pages| - 1] {
      PageWidgetsComplete(p.guid, p.widgets, raw);
    } else {
      PagesWidgetsComplete(front, p, raw);
    }
  }

  /** The drop rule and the tagging rule: a decomposed response is empty when the body did not
      decode or any error was reported; otherwise it holds exactly one widget per raw widget
      with a query, over all pages: each emitted widget is the normalised form of a raw widget
      with a query, tagged with the GUID of the page holding it, and each such raw widget is
      emitted. */
  lemma DecomposeContents(resp: DetailResponse)
    ensures forall w | w in Decompose(resp) ::
              w.nrqlQueries != [] && resp.Parsed? && w.guid in PageGuidSet(resp.pages)
    ensures forall w | w in Decompose(resp) ::
              exists p, raw | p in resp.pages && raw in p.widgets && ParseWidget(raw).nrqlQueries != [] ::
                w == ParseWidget(raw).(guid := p.guid)
    ensures resp.Malformed? || |resp.errors| > 0 ==> Decompose(resp) == []
    ensures resp.Parsed? && |resp.errors| == 0 ==> |Decompose(resp)| == ResolvingCount(resp.pages)
    ensures resp.Parsed? && |resp.errors| == 0 ==>
              forall p, raw | p in resp.pages && raw in p.widgets && ParseWidget(raw).nrqlQueries != [] ::
                ParseWidget(raw).(guid := p.guid) in Decompose(resp)
  {
    if resp.Parsed? {
      PagesWidgetsShape(resp.pages);
      if |resp.errors| == 0 {
        PagesWidgetsCount(resp.pages);
        forall p, raw | p in resp.pages && raw in p.widgets && ParseWidget(raw).nrqlQueries != []
          ensures ParseWidget(raw).(guid := p.guid) in Decompose(resp)
        {
          PagesWidgetsComplete(resp.pages, p, raw);
        }
      }
    }
  }

  /** The markdown slot never influences the result. */
  lemma MarkdownIgnored(raw: RawWidget, markdown: seq<NrqlQuery>)
    ensures ParseWidget(raw.(configuration := raw.configuration.(markdown := markdown))) == ParseWidget(raw)
  {
  }
}
