/** Classification of listed entities and the dashboard map and parent list that the
    listing loop builds from them (graphql.go:158-228). */
module Listing {
  import opened Types

  const CreatedByKey: string := "createdBy"

  predicate OneValued(t: Tag) {
    |t.values| == 1
  }

  /** The value of the last one-valued `createdBy` tag, or "" when there is none. */
  function CreatedByOf(tags: seq<Tag>): string
    decreases |tags|
  {
    if tags == [] then ""
    else
      var t := tags[|tags| - 1];
      if t.key == CreatedByKey && OneValued(t) then t.values[0] else CreatedByOf(tags[..|tags| - 1])
  }

  /** Whether the last one-valued tag with another key says "true"; false when there is none. */
  function PageFlagOf(tags: seq<Tag>): bool
    decreases |tags|
  {
    if tags == [] then false
    else
      var t := tags[|tags| - 1];
      if t.key != CreatedByKey && OneValued(t) then t.values[0] == "true" else PageFlagOf(tags[..|tags| - 1])
  }

  /** The dashboard `parseEntity` makes of a listed entity: the identity fields are copied, and
      the tags are consulted only when there are exactly two of them. */
  function Classified(e: Entity): (d: Dashboard)
    ensures d.accountId == e.accountId && d.guid == e.guid
    ensures d.name == e.name && d.permalink == e.permalink
    ensures |e.tags| != 2 ==> d.createdBy == "" && !d.isPage
    ensures d.widgetMap == map[] && d.widgetIds == []
  {
    var two := |e.tags| == 2;
    Dashboard(e.accountId, e.guid, e.name, e.permalink,
              if two then CreatedByOf(e.tags) else "",
              if two then PageFlagOf(e.tags) else false,
              map[], [])
  }

  /** With two tags, the second overrides the first, and a tag with zero or several values
      changes nothing. */
  lemma TwoTagClassification(e: Entity)
    requires |e.tags| == 2
    ensures var t0, t1 := e.tags[0], e.tags[1];
      Classified(e).createdBy ==
        (if t1.key == CreatedByKey && OneValued(t1) then t1.values[0]
         else if t0.key == CreatedByKey && OneValued(t0) then t0.values[0]
         else "")
    ensures var t0, t1 := e.tags[0], e.tags[1];
      Classified(e).isPage ==
        (if t1.key != CreatedByKey && OneValued(t1) then t1.values[0] == "true"
         else if t0.key != CreatedByKey && OneValued(t0) then t0.values[0] == "true"
         else false)
  {
    var t := e.tags;
    assert t[..|t| - 1] == [t[0]];
    assert [t[0]][..0] == [];
    assert CreatedByOf([t[0]]) == if t[0].key == CreatedByKey && OneValued(t[0]) then t[0].values[0] else "";
    assert PageFlagOf([t[0]]) == if t[0].key != CreatedByKey && OneValued(t[0]) then t[0].values[0] == "true" else false;
  }

  /** `parseEntity`: copies the identity fields, then walks the tags when there are exactly two. */
  method ParseEntity(e: Entity) returns (d: Dashboard)
    ensures d == Classified(e)
  {
    d := Dashboard(e.accountId, e.guid, e.name, e.permalink, "", false, map[], []);
    if |e.tags| == 2 {
      for i := 0 to |e.tags|
        invariant d == Dashboard(e.accountId, e.guid, e.name, e.permalink,
                                 CreatedByOf(e.tags[..i]), PageFlagOf(e.tags[..i]), map[], [])
      {
        var tag := e.tags[i];
        assert e.tags[..i + 1][..i] == e.tags[..i];
        if tag.key == CreatedByKey {
          if |tag.values| == 1 {
            d := d.(createdBy := tag.values[0]);
          }
        } else {
          if |tag.values| == 1 {
            d := d.(isPage := tag.values[0] == "true");
          }
        }
      }
      assert e.tags[..|e.tags|] == e.tags;
    }
  }

  /** The dashboard map after the listing loop has stored the entities `es`, in order: a page
      is stored under its GUID, replacing what was there; any other entity leaves the map alone. */
  function ListedMap(dm: map<string, Dashboard>, es: seq<Entity>): map<string, Dashboard>
    decreases |es|
  {
    if es == [] then dm
    else
      var m := ListedMap(dm, es[..|es| - 1]);
      var e := es[|es| - 1];
      if Classified(e).isPage then m[e.guid := Classified(e)] else m
  }

  /** The GUIDs of the entities of `es` that are not pages, in listing order. */
  function ListedParents(es: seq<Entity>): seq<string>
    decreases |es|
  {
    if es == [] then []
    else
      var e := es[|es| - 1];
      ListedParents(es[..|es| - 1]) + (if Classified(e).isPage then [] else [e.guid])
  }

  /** All entities of a sequence of pages, page after page. */
  function AllEntities(pages: seq<ListingPage>): seq<Entity>
    decreases |pages|
  {
    if pages == [] then [] else AllEntities(pages[..|pages| - 1]) + pages[|pages| - 1].entities
  }

  function PageGuids(es: seq<Entity>): set<string> {
    set e | e in es && Classified(e).isPage :: e.guid
  }

  /** How many responses the listing loop reads when the upstream answers its k-th request with
      `pages[k]`: up to and including the first without a cursor. When `pages` runs out first,
      the loop stops there. */
  function PagesFetched(pages: seq<ListingPage>): (n: nat)
    ensures n <= |pages|
    decreases |pages|
  {
    if pages == [] then 0
    else if pages[0].nextCursor.None? then 1
    else 1 + PagesFetched(pages[1..])
  }

  /** The loop reads at least one response, every response but the last it reads carries a
      cursor, and it stops before the end of `pages` only at a response without one. */
  lemma {:induction false} PagesFetchedStops(pages: seq<ListingPage>)
    ensures |pages| > 0 ==> PagesFetched(pages) > 0
    ensures forall k | 0 <= k < PagesFetched(pages) - 1 :: pages[k].nextCursor.Some?
    ensures PagesFetched(pages) < |pages| ==> pages[PagesFetched(pages) - 1].nextCursor.None?
    ensures PagesFetched(pages) == |pages| && |pages| > 0 && pages[|pages| - 1].nextCursor.Some? ==>
              forall k | 0 <= k < |pages| :: pages[k].nextCursor.Some?
    decreases |pages|
  {
    if pages != [] && pages[0].nextCursor.Some? {
      var rest := pages[1..];
      PagesFetchedStops(rest);
      assert forall k | 1 <= k < |pages| :: pages[k] == rest[k - 1];
    }
  }

  /** Reading one more response extends the entities seen and the cursors sent. */
  lemma ReadStep(read: seq<ListingPage>, page: ListingPage)
    ensures AllEntities(read + [page]) == AllEntities(read) + page.entities
    ensures CursorsSent(read + [page]) == CursorsSent(read) + [if read == [] then "" else CursorAfter(read[|read| - 1])]
  {
    assert (read + [page])[..|read|] == read;
  }

  /** One more response read by the listing loop: the loop goes on exactly when the
      response carries a cursor. */
  lemma FetchStep(pages: seq<ListingPage>, i: nat)
    requires i < |pages|
    ensures PagesFetched(pages[i..]) ==
              if pages[i].nextCursor.None? then 1 else 1 + PagesFetched(pages[i + 1..])
    ensures pages[..i + 1] == pages[..i] + [pages[i]]
  {
    assert pages[i..][1..] == pages[i + 1..];
  }

  /** The cursor a response hands to the next request (only read when it has one). */
  function CursorAfter(p: ListingPage): string {
    if p.nextCursor.Some? then p.nextCursor.value else ""
  }

  /** The cursor variable of each request the listing loop sends while reading `ps`, in order. */
  function CursorsSent(ps: seq<ListingPage>): (r: seq<string>)
    ensures |r| == |ps|
    decreases |ps|
  {
    if ps == [] then []
    else
      var front := ps[..|ps| - 1];
      CursorsSent(front) + [if front == [] then "" else CursorAfter(front[|front| - 1])]
  }

  /** The first request has no cursor (the empty string is left out of the payload); every
      later one carries the cursor of the response before it. */
  lemma {:induction false} CursorsSentAt(ps: seq<ListingPage>)
    ensures |ps| > 0 ==> CursorsSent(ps)[0] == ""
    ensures forall k | 0 < k < |ps| :: CursorsSent(ps)[k] == CursorAfter(ps[k - 1])
    decreases |ps|
  {
    if ps != [] {
      var front := ps[..|ps| - 1];
      CursorsSentAt(front);
      assert forall k | 0 <= k < |front| :: CursorsSent(ps)[k] == CursorsSent(front)[k];
    }
  }

  lemma PageGuidsSnoc(front: seq<Entity>, e: Entity)
    ensures PageGuids(front + [e]) == PageGuids(front) + (if Classified(e).isPage then {e.guid} else {})
  {
    var es := front + [e];
    assert forall x | x in es :: x in front || x == e;
  }

  /** The map gains exactly the GUIDs of the listed pages, and every other entry is untouched. */
  lemma {:induction false} ListedMapKeys(dm: map<string, Dashboard>, es: seq<Entity>)
    ensures ListedMap(dm, es).Keys == dm.Keys + PageGuids(es)
    ensures forall g | g in dm && g !in PageGuids(es) :: ListedMap(dm, es)[g] == dm[g]
    decreases |es|
  {
    if es != [] {
      var front, e := es[..|es| - 1], es[|es| - 1];
      ListedMapKeys(dm, front);
      assert es == front + [e];
      PageGuidsSnoc(front, e);
    }
  }

  /** Each listed page GUID holds the classification of a page entity with that GUID, with no
      widgets yet. */
  lemma {:induction false} ListedMapStored(dm: map<string, Dashboard>, es: seq<Entity>, g: string)
    requires g in PageGuids(es)
    ensures g in ListedMap(dm, es)
    ensures exists e | e in es :: Classified(e).isPage && e.guid == g && ListedMap(dm, es)[g] == Classified(e)
    decreases |es|
  {
    var front, e := es[..|es| - 1], es[|es| - 1];
    assert es == front + [e];
    PageGuidsSnoc(front, e);
    if Classified(e).isPage && g == e.guid {
      assert e in es;
    } else {
      ListedMapStored(dm, front, g);
      var x :| x in front && Classified(x).isPage && x.guid == g && ListedMap(dm, front)[g] == Classified(x);
      assert x in es;
    }
  }

  /** The last page entity listed with a GUID wins: the map holds its classification, whatever
      earlier entities with that GUID stored. */
  lemma {:induction false} ListedMapLastWins(dm: map<string, Dashboard>, es: seq<Entity>, i: nat)
    requires i < |es| && Classified(es[i]).isPage
    requires forall j | i < j < |es| :: !(Classified(es[j]).isPage && es[j].guid == es[i].guid)
    ensures es[i].guid in ListedMap(dm, es) && ListedMap(dm, es)[es[i].guid] == Classified(es[i])
    decreases |es|
  {
    var front := es[..|es| - 1];
    if i < |front| {
      assert forall j | i < j < |front| :: front[j] == es[j];
      ListedMapLastWins(dm, front, i);
    }
  }

  /** A GUID is appended to the parent list exactly when a non-page entity carries it; the list
      holds the GUIDs of the non-page entities one for one, in listing order. */
  lemma {:induction false} ListedParentsContents(es: seq<Entity>)
    ensures forall g :: g in ListedParents(es) <==> exists e | e in es :: !Classified(e).isPage && e.guid == g
    ensures |ListedParents(es)| == |NonPages(es)|
    ensures forall i | 0 <= i < |NonPages(es)| :: ListedParents(es)[i] == NonPages(es)[i].guid
    decreases |es|
  {
    if es != [] {
      var front, e := es[..|es| - 1], es[|es| - 1];
      ListedParentsContents(front);
      assert es == front + [e];
      assert forall x | x in es :: x in front || x == e;
      assert NonPages(es) == NonPages(front) + (if Classified(e).isPage then [] else [e]);
      forall g | g in ListedParents(es)
        ensures exists x | x in es :: !Classified(x).isPage && x.guid == g
      {
        if g in ListedParents(front) {
          var x :| x in front && !Classified(x).isPage && x.guid == g;
          assert x in es;
        } else {
          assert e in es;
        }
      }
    }
  }

  /** Storing `a` and then `b` is storing `a + b`: the listing loop may handle page after page. */
  lemma {:induction false} ListedMapAppend(dm: map<string, Dashboard>, a: seq<Entity>, b: seq<Entity>)
    ensures ListedMap(dm, a + b) == ListedMap(ListedMap(dm, a), b)
    decreases |b|
  {
    if b == [] {
      assert a + b == a;
    } else {
      var front := b[..|b| - 1];
      assert (a + b)[..|a + b| - 1] == a + front;
      ListedMapAppend(dm, a, front);
    }
  }

  lemma {:induction false} ListedParentsAppend(a: seq<Entity>, b: seq<Entity>)
    ensures ListedParents(a + b) == ListedParents(a) + ListedParents(b)
    decreases |b|
  {
    if b == [] {
      assert a + b == a;
    } else {
      var front := b[..|b| - 1];
      assert (a + b)[..|a + b| - 1] == a + front;
      ListedParentsAppend(a, front);
    }
  }

  /** Listing keeps the dashboard map well formed: new dashboards have no widgets yet. */
  lemma {:induction false} ListedMapWellFormed(dm: map<string, Dashboard>, es: seq<Entity>)
    requires WellFormed(dm)
    ensures WellFormed(ListedMap(dm, es))
    decreases |es|
  {
    if es != [] {
      ListedMapWellFormed(dm, es[..|es| - 1]);
    }
  }

  /** The non-page entities of `es`, in order. */
  function NonPages(es: seq<Entity>): seq<Entity>
    decreases |es|
  {
    if es == [] then []
    else
      var e := es[|es| - 1];
      NonPages(es[..|es| - 1]) + (if Classified(e).isPage then [] else [e])
  }
}
