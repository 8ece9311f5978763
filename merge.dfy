/** The aggregator of `getDashboardDetails` (graphql.go:323-345): it reads emitted widgets until it
    has seen `GrQlParallel` end-of-work markers, stores each widget in its dashboard, and sorts
    every dashboard's id list at the end. */
module Merge {
  import opened Types
  import opened Sorting

  /** Number of end-of-work markers in `outs`. */
  function SentinelCount(outs: seq<Widget>): nat
    decreases |outs|
  {
    if outs == [] then 0 else (if IsSentinel(outs[0]) then 1 else 0) + SentinelCount(outs[1..])
  }

  lemma {:induction false} SentinelCountAppend(a: seq<Widget>, b: seq<Widget>)
    ensures SentinelCount(a + b) == SentinelCount(a) + SentinelCount(b)
    decreases |a|
  {
    if a != [] {
      assert (a + b)[1..] == a[1..] + b;
      SentinelCountAppend(a[1..], b);
    } else {
      assert a + b == b;
    }
  }

  lemma EndsWithMarker(s: seq<Widget>)
    requires s != [] && IsSentinel(s[|s| - 1])
    ensures SentinelCount(s) >= 1
  {
    var front := s[..|s| - 1];
    assert s == front + [s[|s| - 1]];
    SentinelCountAppend(front, [s[|s| - 1]]);
  }

  function Min(a: nat, b: nat): nat {
    if a <= b then a else b
  }

  /** Where reading stops when it starts at `pos` still waiting for `n` markers: just after the
      n-th marker from `pos`, or at the end of `outs` when there are fewer. */
  function CutFrom(outs: seq<Widget>, pos: nat, n: nat): (k: nat)
    requires pos <= |outs|
    ensures pos <= k <= |outs|
    ensures n == 0 ==> k == pos
    ensures SentinelCount(outs[pos..k]) == Min(n, SentinelCount(outs[pos..]))
    ensures n > 0 && SentinelCount(outs[pos..]) >= n ==> k > pos && IsSentinel(outs[k - 1])
    ensures SentinelCount(outs[pos..]) < n ==> k == |outs|
    decreases |outs| - pos
  {
    if n == 0 || pos == |outs| then pos
    else
      var rest := CutFrom(outs, pos + 1, if IsSentinel(outs[pos]) then n - 1 else n);
      assert outs[pos..][1..] == outs[pos + 1..];
      assert outs[pos..rest][1..] == outs[pos + 1..rest];
      rest
  }

  /** The number of widgets the aggregator reads when waiting for `n` markers. */
  function SentinelCut(outs: seq<Widget>, n: nat): (k: nat)
    ensures k <= |outs|
    ensures SentinelCount(outs[..k]) == Min(n, SentinelCount(outs))
    ensures n > 0 && SentinelCount(outs) >= n ==> k > 0 && IsSentinel(outs[k - 1])
    ensures SentinelCount(outs) < n ==> k == |outs|
  {
    assert outs[0..] == outs;
    assert outs[0..CutFrom(outs, 0, n)] == outs[..CutFrom(outs, 0, n)];
    CutFrom(outs, 0, n)
  }

  /** A sequence holding exactly `n` markers, the last element among them, is read to its end. */
  lemma SentinelCutAtLastMarker(outs: seq<Widget>, n: nat)
    requires n > 0 && outs != [] && IsSentinel(outs[|outs| - 1])
    requires SentinelCount(outs) == n
    ensures SentinelCut(outs, n) == |outs|
  {
    var k := SentinelCut(outs, n);
    if k < |outs| {
      CountSplit(outs, k);
      MarkerAtEnd(outs, k);
      assert false;
    }
  }

  lemma CountSplit(outs: seq<Widget>, k: nat)
    requires k <= |outs|
    ensures SentinelCount(outs) == SentinelCount(outs[..k]) + SentinelCount(outs[k..])
  {
    assert outs == outs[..k] + outs[k..];
    SentinelCountAppend(outs[..k], outs[k..]);
  }

  lemma MarkerAtEnd(outs: seq<Widget>, k: nat)
    requires k < |outs| && IsSentinel(outs[|outs| - 1])
    ensures SentinelCount(outs[k..]) >= 1
  {
    var tail := outs[k..];
    assert tail[|tail| - 1] == outs[|outs| - 1];
    EndsWithMarker(tail);
  }

  /** One step of the aggregator: a marker or a widget whose dashboard is unknown changes
      nothing; otherwise the widget is stored under its id and the id is appended. */
  function MergeOne(dm: map<string, Dashboard>, w: Widget): map<string, Dashboard> {
    if IsSentinel(w) || w.guid !in dm then dm
    else
      var d := dm[w.guid];
      dm[w.guid := d.(widgetMap := d.widgetMap[w.id := w], widgetIds := d.widgetIds + [w.id])]
  }

  /** The aggregator's map after reading `ws` in order. */
  function MergeAll(dm: map<string, Dashboard>, ws: seq<Widget>): map<string, Dashboard>
    decreases |ws|
  {
    if ws == [] then dm else MergeOne(MergeAll(dm, ws[..|ws| - 1]), ws[|ws| - 1])
  }

  /** Whether `w` is a widget the aggregator stores in dashboard `g`. */
  predicate MergesInto(w: Widget, g: string) {
    !IsSentinel(w) && w.guid == g
  }

  /** The ids of the widgets of `ws` destined for dashboard `g`, in order, repeats included. */
  function IdsFor(ws: seq<Widget>, g: string): seq<int>
    decreases |ws|
  {
    if ws == [] then []
    else IdsFor(ws[..|ws| - 1], g) + (if MergesInto(ws[|ws| - 1], g) then [ws[|ws| - 1].id] else [])
  }

  /** The last widget of `ws` destined for dashboard `g` with id `id`, searching backwards. */
  function LastWidget(ws: seq<Widget>, g: string, id: int): Option<Widget>
    decreases |ws|
  {
    if ws == [] then None
    else
      var w := ws[|ws| - 1];
      if MergesInto(w, g) && w.id == id then Some(w) else LastWidget(ws[..|ws| - 1], g, id)
  }

  /** The number of widgets of `ws` that find their dashboard in `dm` (the `widgets` counter). */
  function MergedCount(dm: map<string, Dashboard>, ws: seq<Widget>): nat
    decreases |ws|
  {
    if ws == [] then 0
    else
      var w := ws[|ws| - 1];
      MergedCount(dm, ws[..|ws| - 1]) + (if !IsSentinel(w) && w.guid in dm then 1 else 0)
  }

  /** The same dashboard apart from its widgets. */
  predicate SameHeader(a: Dashboard, b: Dashboard) {
    a.accountId == b.accountId && a.guid == b.guid && a.name == b.name &&
    a.permalink == b.permalink && a.createdBy == b.createdBy && a.isPage == b.isPage
  }

  /** Merging adds no dashboard (a widget with an unknown GUID is dropped) and changes no
      dashboard's header; each dashboard's id list grows by exactly the ids destined for it, in
      reading order and with repeats; its widget map gains exactly those ids, each holding the
      ids it did not hold before. */
  lemma {:induction false} MergeAllEffect(dm: map<string, Dashboard>, ws: seq<Widget>)
    ensures MergeAll(dm, ws).Keys == dm.Keys
    ensures forall g | g in dm :: SameHeader(MergeAll(dm, ws)[g], dm[g])
    ensures forall g | g in dm :: MergeAll(dm, ws)[g].widgetIds == dm[g].widgetIds + IdsFor(ws, g)
    ensures forall g, id | g in dm ::
              id in MergeAll(dm, ws)[g].widgetMap <==> id in dm[g].widgetMap || id in IdsFor(ws, g)
    decreases |ws|
  {
    if ws != [] {
      var front, w := ws[..|ws| - 1], ws[|ws| - 1];
      MergeAllEffect(dm, front);
      forall g, id | g in dm
        ensures id in IdsFor(ws, g) <==> id in IdsFor(front, g) || (MergesInto(w, g) && w.id == id)
      {
      }
    }
  }

  /** Each listed id of a dashboard holds the last widget read for it, or the one it held before
      when none was read. */
  lemma {:induction false} MergeAllStored(dm: map<string, Dashboard>, ws: seq<Widget>)
    ensures MergeAll(dm, ws).Keys == dm.Keys
    ensures forall g, id | g in dm && LastWidget(ws, g, id).Some? ::
              id in MergeAll(dm, ws)[g].widgetMap &&
              MergeAll(dm, ws)[g].widgetMap[id] == LastWidget(ws, g, id).value
    ensures forall g, id | g in dm && LastWidget(ws, g, id).None? && id in dm[g].widgetMap ::
              id in MergeAll(dm, ws)[g].widgetMap &&
              MergeAll(dm, ws)[g].widgetMap[id] == dm[g].widgetMap[id]
    decreases |ws|
  {
    if ws != [] {
      MergeAllStored(dm, ws[..|ws| - 1]);
      MergeAllKeys(dm, ws[..|ws| - 1]);
    }
  }

  /** A widget whose dashboard is not in the map leaves the map exactly as it was. */
  lemma OrphanDropped(dm: map<string, Dashboard>, ws: seq<Widget>, w: Widget)
    requires !IsSentinel(w) && w.guid !in dm
    ensures MergeAll(dm, ws + [w]) == MergeAll(dm, ws)
  {
    assert (ws + [w])[..|ws|] == ws;
    MergeAllEffect(dm, ws);
  }

  /** Merging keeps every dashboard well formed, so a stored widget always belongs to the
      dashboard holding it. */
  lemma {:induction false} MergeAllWellFormed(dm: map<string, Dashboard>, ws: seq<Widget>)
    requires WellFormed(dm)
    ensures WellFormed(MergeAll(dm, ws))
    decreases |ws|
  {
    if ws != [] {
      MergeAllWellFormed(dm, ws[..|ws| - 1]);
    }
  }

  /** Repeated ids are appended once per widget but stored once: the id list of a dashboard can
      be longer than its widget map, so the list is not duplicate-free. */
  lemma RepeatedIdListedTwice(d: Dashboard, w1: Widget, w2: Widget)
    requires d.widgetMap == map[] && d.widgetIds == []
    requires w1.guid == d.guid && w2.guid == d.guid && d.guid != "" && w1.id == w2.id
    ensures var m := MergeAll(map[d.guid := d], [w1, w2]);
      d.guid in m && m[d.guid].widgetIds == [w1.id, w1.id] && m[d.guid].widgetMap == map[w1.id := w2]
  {
    var m0 := map[d.guid := d];
    assert [w1, w2][..1] == [w1];
    assert [w1][..0] == [];
    var m1 := MergeOne(m0, w1);
    assert MergeAll(m0, [w1]) == m1;
    assert m1[d.guid].widgetIds == [w1.id];
    assert MergeAll(m0, [w1, w2]) == MergeOne(m1, w2);
  }

  /** Reading one more widget is one more merge step, and one more count when it is merged. */
  lemma MergeStep(dm: map<string, Dashboard>, outs: seq<Widget>, pos: nat)
    requires pos < |outs|
    ensures MergeAll(dm, outs[..pos + 1]) == MergeOne(MergeAll(dm, outs[..pos]), outs[pos])
    ensures MergedCount(dm, outs[..pos + 1]) ==
            MergedCount(dm, outs[..pos]) + (if !IsSentinel(outs[pos]) && outs[pos].guid in dm then 1 else 0)
    ensures MergeAll(dm, outs[..pos]).Keys == dm.Keys
  {
    assert outs[..pos + 1][..pos] == outs[..pos];
    MergeAllKeys(dm, outs[..pos]);
  }

  lemma {:induction false} MergeAllKeys(dm: map<string, Dashboard>, ws: seq<Widget>)
    ensures MergeAll(dm, ws).Keys == dm.Keys
    decreases |ws|
  {
    if ws != [] {
      MergeAllKeys(dm, ws[..|ws| - 1]);
    }
  }

  /** A round that reads no marker before its last widget, and ends on a marker or at the end of
      the sequence, leaves one marker fewer to wait for. */
  lemma {:induction false} RoundCut(outs: seq<Widget>, start: nat, pos: nat, n: nat)
    requires start <= pos <= |outs| && n > 0
    requires forall k | start <= k < pos - 1 :: !IsSentinel(outs[k])
    requires pos == |outs| || (pos > start && IsSentinel(outs[pos - 1]))
    ensures CutFrom(outs, start, n) == CutFrom(outs, pos, n - 1)
    decreases pos - start
  {
    if start < pos {
      if start < pos - 1 {
        RoundCut(outs, start + 1, pos, n);
      } else if !IsSentinel(outs[start]) {
        assert pos == |outs|;
      }
    } else {
      assert pos == |outs|;
    }
  }

  /** The final pass: every dashboard's id list in ascending order. */
  function SortPass(dm: map<string, Dashboard>): map<string, Dashboard> {
    map g | g in dm :: dm[g].(widgetIds := SortInts(dm[g].widgetIds))
  }

  /** After the final pass every id list is ascending and holds the same ids as before, as often
      as before; nothing else changes. */
  lemma SortPassEffect(dm: map<string, Dashboard>)
    ensures SortPass(dm).Keys == dm.Keys
    ensures forall g | g in dm ::
              && Sorted(SortPass(dm)[g].widgetIds)
              && multiset(SortPass(dm)[g].widgetIds) == multiset(dm[g].widgetIds)
              && SortPass(dm)[g].widgetMap == dm[g].widgetMap
              && SameHeader(SortPass(dm)[g], dm[g])
    ensures WellFormed(dm) ==> WellFormed(SortPass(dm))
  {
    forall g, id | g in dm
      ensures id in SortPass(dm)[g].widgetIds <==> id in dm[g].widgetIds
    {
      assert id in multiset(SortPass(dm)[g].widgetIds) <==> id in multiset(dm[g].widgetIds);
    }
  }

  lemma SortPassWellFormed(dm: map<string, Dashboard>)
    requires WellFormed(dm)
    ensures WellFormed(SortPass(dm))
  {
    SortPassEffect(dm);
  }
}
