/** The concurrent half of `getDashboardDetails` (graphql.go:255-321), stated over values: every
    worker emits the widgets of the responses it handled followed by one end-of-work marker,
    and the aggregator receives some interleaving of the workers' streams. The lemmas show that
    the aggregator then drains every stream and that, after the sorting pass, its result does not
    depend on how the GUIDs were shared out or on how the streams were interleaved. */
module Details {
  import opened Types
  import opened Widgets
  import opened Merge
  import opened Sorting
  import opened Seqs

  /** What one worker emits for the responses to the GUIDs it took, in the order it took them. */
  function WorkerOutputs(resps: seq<DetailResponse>): seq<Widget> {
    Concat(Decompose, resps)
  }

  /** A worker's whole stream: its widgets, then the marker it sends on reading the empty GUID. */
  function WorkerStream(resps: seq<DetailResponse>): seq<Widget> {
    WorkerOutputs(resps) + [Sentinel]
  }

  /** The streams of the workers, worker `k` having handled the responses `shares[k]`. */
  function Streams(shares: seq<seq<DetailResponse>>): (s: seq<seq<Widget>>)
    ensures |s| == |shares|
  {
    seq(|shares|, k requires 0 <= k < |shares| => WorkerStream(shares[k]))
  }

  /** What all workers took, worker after worker. */
  function Shared<T>(shares: seq<seq<T>>): seq<T>
    decreases |shares|
  {
    if shares == [] then [] else Shared(shares[..|shares| - 1]) + shares[|shares| - 1]
  }

  /** All the widgets of some streams, each counted as often as it is emitted. */
  function Pool(streams: seq<seq<Widget>>): multiset<Widget>
    decreases |streams|
  {
    if streams == [] then multiset{} else Pool(streams[..|streams| - 1]) + multiset(streams[|streams| - 1])
  }

  /** `outs` is an order in which the channel can deliver the widgets of `streams`, `from[t]`
      naming the stream whose widget arrives `t`-th: each stream's widgets arrive in that
      stream's order, the streams mixed arbitrarily, and all of them arrive. */
  predicate Interleaves(outs: seq<Widget>, streams: seq<seq<Widget>>, from: seq<nat>)
    decreases |outs|
  {
    && |from| == |outs|
    && if outs == [] then forall k | 0 <= k < |streams| :: streams[k] == []
       else
         var k := from[|from| - 1];
         && k < |streams|
         && streams[k] != []
         && streams[k][|streams[k]| - 1] == outs[|outs| - 1]
         && Interleaves(outs[..|outs| - 1], streams[k := streams[k][..|streams[k]| - 1]], from[..|from| - 1])
  }

  /** `n` end-of-work markers. */
  function Sentinels(n: nat): (s: seq<Widget>)
    ensures |s| == n && forall w | w in s :: w == Sentinel
  {
    if n == 0 then [] else Sentinels(n - 1) + [Sentinel]
  }

  /** No page of a decoded response has the empty GUID, which the aggregator would take for
      a marker. */
  predicate NamedPages(resp: DetailResponse) {
    resp.Parsed? ==> forall p | p in resp.pages :: p.guid != ""
  }

  // ---- additivity of what the aggregator computes ----

  lemma {:induction false} IdsForAppend(a: seq<Widget>, b: seq<Widget>, g: string)
    ensures IdsFor(a + b, g) == IdsFor(a, g) + IdsFor(b, g)
    decreases |b|
  {
    if b == [] {
      assert a + b == a;
    } else {
      assert (a + b)[..|a + b| - 1] == a + b[..|b| - 1];
      IdsForAppend(a, b[..|b| - 1], g);
    }
  }

  lemma {:induction false} MergedCountAppend(dm: map<string, Dashboard>, a: seq<Widget>, b: seq<Widget>)
    ensures MergedCount(dm, a + b) == MergedCount(dm, a) + MergedCount(dm, b)
    decreases |b|
  {
    if b == [] {
      assert a + b == a;
    } else {
      assert (a + b)[..|a + b| - 1] == a + b[..|b| - 1];
      MergedCountAppend(dm, a, b[..|b| - 1]);
    }
  }

  lemma WorkerOutputsAppend(a: seq<DetailResponse>, b: seq<DetailResponse>)
    ensures WorkerOutputs(a + b) == WorkerOutputs(a) + WorkerOutputs(b)
  {
    ConcatAppend(Decompose, a, b);
  }

  // ---- what the aggregator computes depends only on the multiset of what it reads ----

  lemma {:induction false} SentinelCountPermutation(a: seq<Widget>, b: seq<Widget>)
    requires multiset(a) == multiset(b)
    ensures SentinelCount(a) == SentinelCount(b)
    decreases |a|
  {
    if a == [] {
      assert |b| == |multiset(b)| == 0;
    } else {
      var front, x, j, rest := PickLast(a, b);
      SentinelCountPermutation(front, rest);
      SentinelCountAppend(front, [x]);
      SentinelCountAppend(b[..j], b[j + 1..]);
      SentinelCountAppend(b[..j], [x]);
      SentinelCountAppend(b[..j] + [x], b[j + 1..]);
    }
  }

  lemma {:induction false} MergedCountPermutation(dm: map<string, Dashboard>, a: seq<Widget>, b: seq<Widget>)
    requires multiset(a) == multiset(b)
    ensures MergedCount(dm, a) == MergedCount(dm, b)
    decreases |a|
  {
    if a == [] {
      assert |b| == |multiset(b)| == 0;
    } else {
      var front, x, j, rest := PickLast(a, b);
      MergedCountPermutation(dm, front, rest);
      MergedCountAppend(dm, front, [x]);
      MergedCountAppend(dm, b[..j], b[j + 1..]);
      MergedCountAppend(dm, b[..j], [x]);
      MergedCountAppend(dm, b[..j] + [x], b[j + 1..]);
    }
  }

  lemma {:induction false} IdsForPermutation(a: seq<Widget>, b: seq<Widget>, g: string)
    requires multiset(a) == multiset(b)
    ensures multiset(IdsFor(a, g)) == multiset(IdsFor(b, g))
    decreases |a|
  {
    if a == [] {
      assert |b| == |multiset(b)| == 0;
    } else {
      var front, x, j, rest := PickLast(a, b);
      IdsForPermutation(front, rest, g);
      IdsForAppend(front, [x], g);
      IdsForAppend(b[..j], b[j + 1..], g);
      IdsForAppend(b[..j], [x], g);
      IdsForAppend(b[..j] + [x], b[j + 1..], g);
    }
  }

  /** Which worker took which GUID, and in what order, does not change what is emitted. */
  lemma WorkerOutputsPermutation(a: seq<DetailResponse>, b: seq<DetailResponse>)
    requires multiset(a) == multiset(b)
    ensures multiset(WorkerOutputs(a)) == multiset(WorkerOutputs(b))
  {
    ConcatPermutation(Decompose, a, b);
  }

  // ---- interleavings ----

  lemma {:induction false} PoolAllEmpty(streams: seq<seq<Widget>>)
    requires forall k | 0 <= k < |streams| :: streams[k] == []
    ensures Pool(streams) == multiset{}
    decreases |streams|
  {
    if streams != [] {
      PoolAllEmpty(streams[..|streams| - 1]);
    }
  }

  /** Taking the last widget off one stream takes it off the flattened streams. */
  lemma {:induction false} PoolUpdate(streams: seq<seq<Widget>>, k: nat, s: seq<Widget>, x: Widget)
    requires k < |streams| && streams[k] == s + [x]
    ensures Pool(streams) == Pool(streams[k := s]) + multiset{x}
    decreases |streams|
  {
    var n := |streams| - 1;
    var updated := streams[k := s];
    if k == n {
      assert updated[..n] == streams[..n];
    } else {
      assert updated[..n] == streams[..n][k := s];
      PoolUpdate(streams[..n], k, s, x);
    }
  }

  /** The last widget delivered is the last one of some stream, and the rest interleave what
      remains. */
  lemma LastFrom(outs: seq<Widget>, streams: seq<seq<Widget>>, from: seq<nat>) returns (k: nat, s: seq<Widget>)
    requires Interleaves(outs, streams, from) && outs != []
    ensures k < |streams| && streams[k] == s + [outs[|outs| - 1]]
    ensures Interleaves(outs[..|outs| - 1], streams[k := s], from[..|from| - 1])
  {
    k := from[|from| - 1];
    s := streams[k][..|streams[k]| - 1];
    assert streams[k] == s + [outs[|outs| - 1]];
  }

  lemma PoolStep(outs: seq<Widget>, streams: seq<seq<Widget>>, k: nat, s: seq<Widget>)
    requires outs != [] && k < |streams| && streams[k] == s + [outs[|outs| - 1]]
    requires multiset(outs[..|outs| - 1]) == Pool(streams[k := s])
    ensures multiset(outs) == Pool(streams)
  {
    var front, last := outs[..|outs| - 1], outs[|outs| - 1];
    PoolUpdate(streams, k, s, last);
    assert outs == front + [last];
  }

  /** An interleaving delivers exactly the widgets of the streams, each as often as emitted. */
  lemma {:induction false} InterleavesMultiset(outs: seq<Widget>, streams: seq<seq<Widget>>, from: seq<nat>)
    requires Interleaves(outs, streams, from)
    ensures multiset(outs) == Pool(streams)
    decreases |outs|
  {
    if outs == [] {
      PoolAllEmpty(streams);
    } else {
      var k, s := LastFrom(outs, streams, from);
      InterleavesMultiset(outs[..|outs| - 1], streams[k := s], from[..|from| - 1]);
      PoolStep(outs, streams, k, s);
    }
  }

  /** When every stream ends with a marker, so does any non-empty interleaving of them. */
  lemma InterleavesEndsWithMarker(outs: seq<Widget>, streams: seq<seq<Widget>>, from: seq<nat>)
    requires Interleaves(outs, streams, from) && outs != []
    requires forall k | 0 <= k < |streams| && streams[k] != [] :: IsSentinel(streams[k][|streams[k]| - 1])
    ensures IsSentinel(outs[|outs| - 1])
  {
  }

  lemma StreamsEndWithMarker(shares: seq<seq<DetailResponse>>)
    ensures forall k | 0 <= k < |Streams(shares)| && Streams(shares)[k] != [] ::
              IsSentinel(Streams(shares)[k][|Streams(shares)[k]| - 1])
  {
  }

  /** The workers' streams together hold the widgets of all the responses and one marker per
      worker. */
  lemma {:induction false} PoolStreams(shares: seq<seq<DetailResponse>>)
    ensures Pool(Streams(shares)) == multiset(WorkerOutputs(Shared(shares)) + Sentinels(|shares|))
    decreases |shares|
  {
    if shares != [] {
      var n := |shares| - 1;
      var front := shares[..n];
      assert Streams(shares)[..n] == Streams(front);
      PoolStreams(front);
      WorkerOutputsAppend(Shared(front), shares[n]);
    }
  }

  lemma {:induction false} SentinelsCount(n: nat)
    ensures SentinelCount(Sentinels(n)) == n
    decreases n
  {
    if n > 0 {
      SentinelsCount(n - 1);
      SentinelCountAppend(Sentinels(n - 1), [Sentinel]);
    }
  }

  lemma {:induction false} SentinelsInert(dm: map<string, Dashboard>, n: nat, g: string)
    ensures IdsFor(Sentinels(n), g) == [] && MergedCount(dm, Sentinels(n)) == 0
    decreases n
  {
    if n > 0 {
      SentinelsInert(dm, n - 1, g);
      assert Sentinels(n)[..n - 1] == Sentinels(n - 1);
    }
  }

  /** Responses without unnamed pages make a worker emit no marker of its own. */
  lemma {:induction false} WorkerOutputsUnmarked(resps: seq<DetailResponse>)
    requires forall r | r in resps :: NamedPages(r)
    ensures SentinelCount(WorkerOutputs(resps)) == 0
    decreases |resps|
  {
    if resps != [] {
      var front, r := resps[..|resps| - 1], resps[|resps| - 1];
      assert forall x | x in front :: x in resps;
      WorkerOutputsUnmarked(front);
      assert WorkerOutputs(resps) == WorkerOutputs(front) + Decompose(r);
      DecomposeContents(r);
      assert r in resps;
      forall w | w in Decompose(r)
        ensures !IsSentinel(w)
      {
        var p :| p in r.pages && p.guid == w.guid;
        assert p.guid != "";
      }
      UnmarkedCount(Decompose(r));
      SentinelCountAppend(WorkerOutputs(front), Decompose(r));
    }
  }

  lemma {:induction false} UnmarkedCount(ws: seq<Widget>)
    requires forall w | w in ws :: !IsSentinel(w)
    ensures SentinelCount(ws) == 0
    decreases |ws|
  {
    if ws != [] {
      assert forall w | w in ws[1..] :: w in ws;
      UnmarkedCount(ws[1..]);
    }
  }

  /** What the aggregator receives is, as a multiset, the widgets of all the responses plus one
      marker per worker, however the responses were shared out and the streams interleaved. */
  lemma Delivered(jobs: seq<DetailResponse>, shares: seq<seq<DetailResponse>>, outs: seq<Widget>, from: seq<nat>)
    requires multiset(Shared(shares)) == multiset(jobs)
    requires Interleaves(outs, Streams(shares), from)
    ensures multiset(outs) == multiset(WorkerOutputs(jobs) + Sentinels(|shares|))
  {
    InterleavesMultiset(outs, Streams(shares), from);
    PoolStreams(shares);
    WorkerOutputsPermutation(Shared(shares), jobs);
  }

  /** With no unnamed page in the responses, every marker the aggregator sees is a worker's own. */
  lemma MarkerCount(jobs: seq<DetailResponse>, shares: seq<seq<DetailResponse>>, outs: seq<Widget>, from: seq<nat>)
    requires forall r | r in jobs :: NamedPages(r)
    requires multiset(Shared(shares)) == multiset(jobs)
    requires Interleaves(outs, Streams(shares), from)
    ensures SentinelCount(outs) == |shares|
  {
    var emitted := WorkerOutputs(jobs) + Sentinels(|shares|);
    Delivered(jobs, shares, outs, from);
    SentinelCountPermutation(outs, emitted);
    SentinelCountAppend(WorkerOutputs(jobs), Sentinels(|shares|));
    WorkerOutputsUnmarked(jobs);
    SentinelsCount(|shares|);
  }

  /** ... and the last widget delivered is a marker: the aggregator reads everything the workers
      emit, and nothing is left in the channel. */
  lemma AggregatorDrains(jobs: seq<DetailResponse>, shares: seq<seq<DetailResponse>>, outs: seq<Widget>, from: seq<nat>)
    requires forall r | r in jobs :: NamedPages(r)
    requires |shares| == GrQlParallel && multiset(Shared(shares)) == multiset(jobs)
    requires Interleaves(outs, Streams(shares), from)
    ensures SentinelCut(outs, GrQlParallel) == |outs|
  {
    MarkerCount(jobs, shares, outs, from);
    assert outs != [];
    StreamsEndWithMarker(shares);
    InterleavesEndsWithMarker(outs, Streams(shares), from);
    SentinelCutAtLastMarker(outs, GrQlParallel);
  }

  /** Once sorted, a dashboard's id list depends only on the multiset of widgets read. */
  lemma SortedIdsByMultiset(dm: map<string, Dashboard>, outs: seq<Widget>, ws: seq<Widget>, g: string)
    requires g in dm && multiset(outs) == multiset(ws)
    ensures g in SortPass(MergeAll(dm, outs))
    ensures SortPass(MergeAll(dm, outs))[g].widgetIds == SortInts(dm[g].widgetIds + IdsFor(ws, g))
  {
    IdsForPermutation(outs, ws, g);
    MergeAllEffect(dm, outs);
    SortPassEffect(MergeAll(dm, outs));
    var expected := dm[g].widgetIds + IdsFor(ws, g);
    SortedPermutationUnique(SortPass(MergeAll(dm, outs))[g].widgetIds, SortInts(expected));
  }

  /** The markers a worker adds are never merged: reading the widgets of all the responses plus
      markers, in any order, merges as many widgets as reading the responses' widgets. */
  lemma MarkersUncounted(dm: map<string, Dashboard>, jobs: seq<DetailResponse>, n: nat, outs: seq<Widget>)
    requires multiset(outs) == multiset(WorkerOutputs(jobs) + Sentinels(n))
    ensures MergedCount(dm, outs) == MergedCount(dm, WorkerOutputs(jobs))
  {
    MergedCountPermutation(dm, outs, WorkerOutputs(jobs) + Sentinels(n));
    MergedCountAppend(dm, WorkerOutputs(jobs), Sentinels(n));
    SentinelsInert(dm, n, "");
  }

  /** Nor are they listed: once sorted, the dashboard's id list is the one reading the responses'
      widgets one response after another gives. */
  lemma MarkersUnlisted(dm: map<string, Dashboard>, jobs: seq<DetailResponse>, n: nat, outs: seq<Widget>, g: string)
    requires g in dm && multiset(outs) == multiset(WorkerOutputs(jobs) + Sentinels(n))
    ensures g in SortPass(MergeAll(dm, outs))
    ensures SortPass(MergeAll(dm, outs))[g].widgetIds == SortInts(dm[g].widgetIds + IdsFor(WorkerOutputs(jobs), g))
  {
    var emitted := WorkerOutputs(jobs) + Sentinels(n);
    SentinelsInert(dm, n, g);
    IdsForAppend(WorkerOutputs(jobs), Sentinels(n), g);
    assert IdsFor(emitted, g) == IdsFor(WorkerOutputs(jobs), g);
    SortedIdsByMultiset(dm, outs, emitted, g);
  }

  /** The whole of `getDashboardDetails`: the GUIDs' responses `jobs` are shared out among the
      `GrQlParallel` workers in any way, and the aggregator receives any interleaving `outs` of
      their streams. When no decoded page is unnamed, the aggregator reads all of `outs`; it
      merges as many widgets, and after the sorting pass gives every dashboard the same id list,
      as reading the widgets of `jobs` one response after another would. */
  lemma SchedulingIndependent(dm: map<string, Dashboard>, jobs: seq<DetailResponse>,
                              shares: seq<seq<DetailResponse>>, outs: seq<Widget>, from: seq<nat>)
    requires forall r | r in jobs :: NamedPages(r)
    requires |shares| == GrQlParallel && multiset(Shared(shares)) == multiset(jobs)
    requires Interleaves(outs, Streams(shares), from)
    ensures SentinelCut(outs, GrQlParallel) == |outs|
    ensures MergedCount(dm, outs) == MergedCount(dm, WorkerOutputs(jobs))
    ensures forall g | g in dm :: g in SortPass(MergeAll(dm, outs)) &&
              SortPass(MergeAll(dm, outs))[g].widgetIds == SortInts(dm[g].widgetIds + IdsFor(WorkerOutputs(jobs), g))
  {
    AggregatorDrains(jobs, shares, outs, from);
    Delivered(jobs, shares, outs, from);
    MarkersUncounted(dm, jobs, GrQlParallel, outs);
    forall g | g in dm
      ensures g in SortPass(MergeAll(dm, outs)) &&
              SortPass(MergeAll(dm, outs))[g].widgetIds == SortInts(dm[g].widgetIds + IdsFor(WorkerOutputs(jobs), g))
    {
      MarkersUnlisted(dm, jobs, GrQlParallel, outs, g);
    }
  }

  // ---- from the parent GUIDs ----

  /** Fetching one GUID: the response `respond` gives for it. */
  function Fetch(respond: string -> DetailResponse): string -> seq<DetailResponse> {
    g => [respond(g)]
  }

  /** The responses to `guids`, in order. */
  function Responses(respond: string -> DetailResponse, guids: seq<string>): seq<DetailResponse> {
    Concat(Fetch(respond), guids)
  }

  /** The responses each worker handles when worker `k` takes the GUIDs `guidShares[k]`. */
  function ShareResponses(respond: string -> DetailResponse, guidShares: seq<seq<string>>): (r: seq<seq<DetailResponse>>)
    ensures |r| == |guidShares|
  {
    seq(|guidShares|, k requires 0 <= k < |guidShares| => Responses(respond, guidShares[k]))
  }

  /** Every response fetched is the response to one of the GUIDs. */
  lemma {:induction false} ResponsesFrom(respond: string -> DetailResponse, guids: seq<string>)
    ensures forall r | r in Responses(respond, guids) :: exists g | g in guids :: r == respond(g)
    decreases |guids|
  {
    if guids != [] {
      var front, g := guids[..|guids| - 1], guids[|guids| - 1];
      ResponsesFrom(respond, front);
      assert guids == front + [g];
      assert Responses(respond, guids) == Responses(respond, front) + [respond(g)];
      forall r | r in Responses(respond, guids)
        ensures exists x | x in guids :: r == respond(x)
      {
        if r in Responses(respond, front) {
          var x :| x in front && r == respond(x);
          assert x in guids;
        } else {
          assert g in guids;
        }
      }
    }
  }

  /** The workers' responses together are the responses to the GUIDs they took together. */
  lemma {:induction false} SharedResponses(respond: string -> DetailResponse, guidShares: seq<seq<string>>)
    ensures Shared(ShareResponses(respond, guidShares)) == Responses(respond, Shared(guidShares))
    decreases |guidShares|
  {
    if guidShares != [] {
      var n := |guidShares| - 1;
      var front := guidShares[..n];
      SharedResponses(respond, front);
      assert ShareResponses(respond, guidShares)[..n] == ShareResponses(respond, front);
      ConcatAppend(Fetch(respond), Shared(front), guidShares[n]);
    }
  }

  /** `getDashboardDetails` from `ParentGuids`: the feeder queues the GUIDs `parents`, each
      answered by `respond`, and then one empty GUID per worker; worker `k` takes the GUIDs
      `guidShares[k]` before its empty GUID, so the shares together are `parents` in some
      order; the aggregator receives any interleaving `outs` of the workers' streams. When no
      parent GUID is empty and no decoded page is unnamed, the aggregator reads all of `outs`
      and, after the sorting pass, ends as reading the responses to `parents` in listing order
      would. */
  lemma ParentsScheduled(dm: map<string, Dashboard>, parents: seq<string>, respond: string -> DetailResponse,
                         guidShares: seq<seq<string>>, outs: seq<Widget>, from: seq<nat>)
    requires forall g | g in parents :: g != "" && NamedPages(respond(g))
    requires |guidShares| == GrQlParallel && multiset(Shared(guidShares)) == multiset(parents)
    requires Interleaves(outs, Streams(ShareResponses(respond, guidShares)), from)
    ensures SentinelCut(outs, GrQlParallel) == |outs|
    ensures MergedCount(dm, outs) == MergedCount(dm, WorkerOutputs(Responses(respond, parents)))
    ensures forall g | g in dm :: g in SortPass(MergeAll(dm, outs)) &&
              SortPass(MergeAll(dm, outs))[g].widgetIds ==
                SortInts(dm[g].widgetIds + IdsFor(WorkerOutputs(Responses(respond, parents)), g))
  {
    var jobs := Responses(respond, parents);
    var shares := ShareResponses(respond, guidShares);
    SharedResponses(respond, guidShares);
    ConcatPermutation(Fetch(respond), Shared(guidShares), parents);
    ResponsesFrom(respond, parents);
    SchedulingIndependent(dm, jobs, shares, outs, from);
  }
}
