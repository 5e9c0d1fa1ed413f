/** The per-frame pipeline topology that `RenderPipeline::Impl` assembles
    (livre/lib/pipeline/RenderPipeline.cpp).

    The filter-graph engine itself (Pipeline, PipeFilter, SimpleExecutor) is
    not part of this model; its operations are recorded, not executed:
    `Pipeline::add` registers a name, `PipeFilter::connect` appends an edge,
    `Pipeline::getExecutable` looks a registered name up, `Promise::set`
    appends the promised port and `schedule` appends a stage-to-executor
    assignment. */
module RenderPipeline {
  import opened Results
  import Decimal

  /** Worker-thread counts of the three executors. */
  const NRenderThreads: nat := 2
  const NUploadThreads: nat := 4
  const NComputeThreads: nat := 2

  datatype ExecutorKind = RenderExecutor | ComputeExecutor | UploadExecutor

  /** Size of the thread pool behind each executor, fixed when the
      render pipeline is constructed. */
  function ThreadCount(e: ExecutorKind): nat {
    match e
    case RenderExecutor => NRenderThreads
    case ComputeExecutor => NComputeThreads
    case UploadExecutor => NUploadThreads
  }

  /** What a pipeline member was created as; a data uploader remembers its
      index among `count` uploaders. */
  datatype FilterKind =
    | VisibleSetGenerator
    | RenderingSetGenerator
    | DataUpload(index: nat, count: nat)

  datatype Registration = Registration(name: string, kind: FilterKind)

  /** A pipeline is the ordered list of the filters added to it. */
  datatype Pipeline = Pipeline(members: seq<Registration>)

  /** A filter handle: a member of one of the frame's pipelines, addressed by
      its name, or one of the four filters that live outside them (the two
      created in `render`, the two handed in by the caller). */
  datatype Filter =
    | Member(name: string)
    | RenderFilter
    | HistogramFilter
    | RedrawFilter
    | SendHistogramFilter

  /** The port names this frame uses; the engine keys ports by these
      strings. */
  datatype PortName =
    | VisibleNodes | Params | CacheObjects | RenderingDone | Histogram
    | Frustum | Frame | DataRange | Viewport | ClipPlanes | RelativeViewport | Id

  datatype Port = Port(filter: Filter, name: PortName)

  /** `source` (an output port) feeds `target` (an input port). */
  datatype Edge = Edge(source: Port, target: Port)

  /** Everything one frame builds: the render and upload pipelines and every
      edge wired, in wiring order. */
  datatype Wiring = Wiring(render: Pipeline, upload: Pipeline, edges: seq<Edge>)

  const EmptyWiring: Wiring := Wiring(Pipeline([]), Pipeline([]), [])

  const VisibleSetGeneratorName: string := "VisibleSetGenerator"
  const RenderingSetGeneratorName: string := "RenderingSetGenerator"
  const UploaderPrefix: string := "DataUploader"

  function Add(p: Pipeline, name: string, kind: FilterKind): Pipeline {
    Pipeline(p.members + [Registration(name, kind)])
  }

  function Connect(w: Wiring, source: Port, target: Port): Wiring {
    w.(edges := w.edges + [Edge(source, target)])
  }

  function Names(p: Pipeline): seq<string> {
    seq(|p.members|, i requires 0 <= i < |p.members| => p.members[i].name)
  }

  /** `getExecutable`: the handle of a registered member, `None` where the
      engine would fail on an unknown name. */
  function GetExecutable(p: Pipeline, name: string): Option<Filter> {
    if name in Names(p) then Some(Member(name)) else None
  }

  /** Producers wired into `target`, in wiring order. */
  function Sources(edges: seq<Edge>, target: Port): seq<Port> {
    if |edges| == 0 then []
    else
      var last := edges[|edges| - 1];
      Sources(edges[..|edges| - 1], target) + (if last.target == target then [last.source] else [])
  }

  lemma {:induction false} SourcesAppend(a: seq<Edge>, b: seq<Edge>, target: Port)
    ensures Sources(a + b, target) == Sources(a, target) + Sources(b, target)
    decreases |b|
  {
    if |b| == 0 {
      assert a + b == a;
    } else {
      var init := b[..|b| - 1];
      assert (a + b)[..|a + b| - 1] == a + init;
      SourcesAppend(a, init, target);
    }
  }

  lemma SourcesSnoc(a: seq<Edge>, x: Edge, target: Port)
    ensures Sources(a + [x], target) == Sources(a, target) + (if x.target == target then [x.source] else [])
  {
    assert (a + [x])[..|a|] == a;
  }

  /** Appending edges that feed other ports leaves `target`'s producers alone. */
  lemma {:induction false} SourcesUnaffected(a: seq<Edge>, b: seq<Edge>, target: Port)
    requires forall e :: e in b ==> e.target != target
    ensures Sources(a + b, target) == Sources(a, target)
    decreases |b|
  {
    if |b| == 0 {
      assert a + b == a;
    } else {
      var init := b[..|b| - 1];
      assert (a + b)[..|a + b| - 1] == a + init;
      SourcesUnaffected(a, init, target);
    }
  }

  // ---------------------------------------------------------------------
  // Data uploaders
  // ---------------------------------------------------------------------

  function UploaderName(i: nat): string {
    UploaderPrefix + Decimal.Show(i)
  }

  function Uploader(i: nat): Filter {
    Member(UploaderName(i))
  }

  /** Uploader `i` is told its index and the total number of uploaders. */
  function UploaderRegistration(i: nat): Registration {
    Registration(UploaderName(i), DataUpload(i, NUploadThreads))
  }

  /** Registrations of uploaders `0 .. n-1`: exactly `n` of them, uploader
      `k` at position `k`. */
  function UploaderRegistrations(n: nat): (r: seq<Registration>)
    ensures |r| == n
    ensures forall k :: 0 <= k < n ==> r[k] == UploaderRegistration(k)
  {
    if n == 0 then [] else UploaderRegistrations(n - 1) + [UploaderRegistration(n - 1)]
  }

  /** The `CacheObjects` outputs of uploaders `0 .. n-1`, uploader `k`'s at
      position `k`. */
  function UploaderOutputs(n: nat): (r: seq<Port>)
    ensures |r| == n
    ensures forall k :: 0 <= k < n ==> r[k] == Port(Uploader(k), CacheObjects)
  {
    if n == 0 then [] else UploaderOutputs(n - 1) + [Port(Uploader(n - 1), CacheObjects)]
  }

  /** Uploader names are pairwise distinct: "DataUploader" followed by the
      decimal index. */
  lemma UploaderNamesDistinct(i: nat, j: nat)
    ensures UploaderName(i) == UploaderName(j) <==> i == j
  {
    if UploaderName(i) == UploaderName(j) {
      assert Decimal.Show(i) == UploaderName(i)[|UploaderPrefix|..];
      assert Decimal.Show(j) == UploaderName(j)[|UploaderPrefix|..];
      Decimal.ShowInjective(i, j);
    }
  }

  /** The four uploaders are "DataUploader0" .. "DataUploader3". */
  lemma UploaderNames()
    ensures Names(Pipeline(UploaderRegistrations(NUploadThreads)))
         == ["DataUploader0", "DataUploader1", "DataUploader2", "DataUploader3"]
  {
    var names := Names(Pipeline(UploaderRegistrations(NUploadThreads)));
    assert Decimal.Show(0) == ['0'] && Decimal.Show(1) == ['1'];
    assert Decimal.Show(2) == ['2'] && Decimal.Show(3) == ['3'];
    assert names[0] == UploaderName(0) == "DataUploader0";
    assert names[1] == UploaderName(1) == "DataUploader1";
    assert names[2] == UploaderName(2) == "DataUploader2";
    assert names[3] == UploaderName(3) == "DataUploader3";
  }

  /** Uploader `k` reads the visible nodes and the parameters from the
      visible-set generator and writes its cache objects to `output`. */
  ghost predicate UploaderWired(edges: seq<Edge>, k: nat, visibleSetGenerator: Filter, output: Filter) {
    && Edge(Port(visibleSetGenerator, VisibleNodes), Port(Uploader(k), VisibleNodes)) in edges
    && Edge(Port(visibleSetGenerator, Params), Port(Uploader(k), Params)) in edges
    && Edge(Port(Uploader(k), CacheObjects), Port(output, CacheObjects)) in edges
  }

  ghost predicate IsUploader(f: Filter) {
    f.Member? && |UploaderPrefix| <= |f.name| && f.name[..|UploaderPrefix|] == UploaderPrefix
  }

  /** The inputs an uploader edge may feed: an uploader's `VisibleNodes` or
      `Params`, or `output`'s `CacheObjects`. */
  ghost predicate UploaderEdgeTarget(t: Port, output: Filter) {
    || t == Port(output, CacheObjects)
    || (IsUploader(t.filter) && (t.name == VisibleNodes || t.name == Params))
  }


  lemma UploaderIsUploader(i: nat)
    ensures IsUploader(Uploader(i))
  {
    assert UploaderName(i)[..|UploaderPrefix|] == UploaderPrefix;
  }

  /** The three edges `createAndConnectUploaders` wires for uploader `i`. */
  function UploaderEdges(visibleSetGenerator: Filter, output: Filter, i: nat): seq<Edge> {
    [ Edge(Port(visibleSetGenerator, VisibleNodes), Port(Uploader(i), VisibleNodes)),
      Edge(Port(visibleSetGenerator, Params), Port(Uploader(i), Params)),
      Edge(Port(Uploader(i), CacheObjects), Port(output, CacheObjects)) ]
  }

  /** The edges of uploaders `0 .. n-1`, in wiring order. */
  function AllUploaderEdges(visibleSetGenerator: Filter, output: Filter, n: nat): seq<Edge> {
    if n == 0 then []
    else AllUploaderEdges(visibleSetGenerator, output, n - 1) + UploaderEdges(visibleSetGenerator, output, n - 1)
  }

  /** One pass of the loop in `createAndConnectUploaders`: add uploader `i`
      to the upload pipeline, then wire its three edges. */
  function AddUploader(w: Wiring, visibleSetGenerator: Filter, output: Filter, i: nat): (r: Wiring)
    ensures r.render == w.render
    ensures r.upload.members == w.upload.members + [UploaderRegistration(i)]
    ensures r.edges == w.edges + UploaderEdges(visibleSetGenerator, output, i)
  {
    var uploader := Uploader(i);
    var w1 := w.(upload := Add(w.upload, UploaderName(i), DataUpload(i, NUploadThreads)));
    var w2 := Connect(w1, Port(visibleSetGenerator, VisibleNodes), Port(uploader, VisibleNodes));
    var w3 := Connect(w2, Port(visibleSetGenerator, Params), Port(uploader, Params));
    Connect(w3, Port(uploader, CacheObjects), Port(output, CacheObjects))
  }

  /** The first `n` passes of that loop: uploaders `0 .. n-1` are appended
      to the upload pipeline in index order, their edges are appended after
      everything wired before, and nothing else changes. */
  function ConnectUploaders(w: Wiring, visibleSetGenerator: Filter, output: Filter, n: nat): (r: Wiring)
    ensures r.render == w.render
    ensures r.upload.members == w.upload.members + UploaderRegistrations(n)
    ensures r.edges == w.edges + AllUploaderEdges(visibleSetGenerator, output, n)
  {
    if n == 0 then
      assert w.upload.members + UploaderRegistrations(0) == w.upload.members;
      assert w.edges + AllUploaderEdges(visibleSetGenerator, output, 0) == w.edges;
      w
    else
      var prev := ConnectUploaders(w, visibleSetGenerator, output, n - 1);
      assert w.upload.members + UploaderRegistrations(n)
          == prev.upload.members + [UploaderRegistration(n - 1)];
      assert w.edges + AllUploaderEdges(visibleSetGenerator, output, n)
          == prev.edges + UploaderEdges(visibleSetGenerator, output, n - 1);
      AddUploader(prev, visibleSetGenerator, output, n - 1)
  }

  /** `createAndConnectUploaders`: all `NUploadThreads` uploaders are
      registered, each is wired, and `output`'s `CacheObjects` gains exactly
      their outputs as producers. */
  function CreateAndConnectUploaders(w: Wiring, visibleSetGenerator: Filter, output: Filter): (r: Wiring)
    ensures r.render == w.render
    ensures r.upload.members == w.upload.members + UploaderRegistrations(NUploadThreads)
    ensures forall k :: 0 <= k < NUploadThreads ==> UploaderWired(r.edges, k, visibleSetGenerator, output)
    ensures Sources(r.edges, Port(output, CacheObjects))
         == Sources(w.edges, Port(output, CacheObjects)) + UploaderOutputs(NUploadThreads)
  {
    var r := ConnectUploaders(w, visibleSetGenerator, output, NUploadThreads);
    WiredAfter(w.edges, visibleSetGenerator, output, NUploadThreads);
    UploaderFanIn(visibleSetGenerator, output, NUploadThreads);
    SourcesAppend(w.edges, AllUploaderEdges(visibleSetGenerator, output, NUploadThreads),
                  Port(output, CacheObjects));
    r
  }

  /** Edges wired before the loop do not undo its wiring. */
  lemma WiredAfter(before: seq<Edge>, visibleSetGenerator: Filter, output: Filter, n: nat)
    ensures forall k :: 0 <= k < n ==>
              UploaderWired(before + AllUploaderEdges(visibleSetGenerator, output, n), k, visibleSetGenerator, output)
  {
    var loop := AllUploaderEdges(visibleSetGenerator, output, n);
    UploadersWired(visibleSetGenerator, output, n);
    forall k | 0 <= k < n
      ensures UploaderWired(before + loop, k, visibleSetGenerator, output)
    {
      assert UploaderWired(loop, k, visibleSetGenerator, output);
      assert multiset(before + loop) == multiset(before) + multiset(loop);
    }
  }

  /** After `n` passes every uploader `k < n` is wired. */
  lemma {:induction false} UploadersWired(visibleSetGenerator: Filter, output: Filter, n: nat)
    ensures forall k :: 0 <= k < n ==>
              UploaderWired(AllUploaderEdges(visibleSetGenerator, output, n), k, visibleSetGenerator, output)
  {
    if n > 0 {
      var prev := AllUploaderEdges(visibleSetGenerator, output, n - 1);
      var e := UploaderEdges(visibleSetGenerator, output, n - 1);
      UploadersWired(visibleSetGenerator, output, n - 1);
      forall k | 0 <= k < n
        ensures UploaderWired(prev + e, k, visibleSetGenerator, output)
      {
        if k < n - 1 {
          assert UploaderWired(prev, k, visibleSetGenerator, output);
        } else {
          assert e[0] in e && e[1] in e && e[2] in e;
        }
      }
    }
  }

  /** Every edge the uploader loop wires feeds an uploader's `VisibleNodes`
      or `Params`, or `output`'s `CacheObjects`. */
  lemma {:induction false} UploaderTargets(visibleSetGenerator: Filter, output: Filter, n: nat)
    ensures forall e :: e in AllUploaderEdges(visibleSetGenerator, output, n) ==>
              UploaderEdgeTarget(e.target, output)
  {
    if n > 0 {
      UploaderTargets(visibleSetGenerator, output, n - 1);
      UploaderIsUploader(n - 1);
    }
  }

  lemma SourcesOfUploaderEdges(visibleSetGenerator: Filter, output: Filter, i: nat)
    ensures Sources(UploaderEdges(visibleSetGenerator, output, i), Port(output, CacheObjects))
         == [Port(Uploader(i), CacheObjects)]
  {
    var e := UploaderEdges(visibleSetGenerator, output, i);
    var target := Port(output, CacheObjects);
    SourcesSnoc([], e[0], target);
    assert [] + [e[0]] == [e[0]];
    assert Sources([e[0]], target) == [];
    SourcesSnoc([e[0]], e[1], target);
    assert [e[0]] + [e[1]] == [e[0], e[1]];
    assert Sources([e[0], e[1]], target) == [];
    SourcesSnoc([e[0], e[1]], e[2], target);
    assert [e[0], e[1]] + [e[2]] == e;
  }

  /** The uploader loop makes exactly the `n` uploaders, in index order, the
      producers of `output`'s `CacheObjects`: a deliberate fan-in. */
  lemma {:induction false} UploaderFanIn(visibleSetGenerator: Filter, output: Filter, n: nat)
    ensures Sources(AllUploaderEdges(visibleSetGenerator, output, n), Port(output, CacheObjects))
         == UploaderOutputs(n)
  {
    if n > 0 {
      var target := Port(output, CacheObjects);
      UploaderFanIn(visibleSetGenerator, output, n - 1);
      SourcesAppend(AllUploaderEdges(visibleSetGenerator, output, n - 1),
                    UploaderEdges(visibleSetGenerator, output, n - 1), target);
      SourcesOfUploaderEdges(visibleSetGenerator, output, n - 1);
    }
  }

  /** Every uploader registered by `n` passes can be found by name. */
  lemma UploadersRegistered(p: Pipeline, n: nat)
    ensures forall k :: 0 <= k < n ==> UploaderName(k) in Names(Pipeline(p.members + UploaderRegistrations(n)))
  {
    var q := Pipeline(p.members + UploaderRegistrations(n));
    forall k | 0 <= k < n
      ensures UploaderName(k) in Names(q)
    {
      assert Names(q)[|p.members| + k] == UploaderName(k);
    }
  }

  // ---------------------------------------------------------------------
  // Synchronous and asynchronous topologies
  // ---------------------------------------------------------------------

  /** The lookup by name of a member that was never added. */
  datatype Error = UnknownExecutable(name: string)

  /** The edges the lookup loop of `createSyncPipeline` wires: each
      uploader's `CacheObjects` into `consumer`'s. */
  function FeedEdges(consumer: Filter, n: nat): (r: seq<Edge>)
    ensures forall e :: e in r ==> e.target == Port(consumer, CacheObjects)
    ensures forall k :: 0 <= k < n ==>
              Edge(Port(Uploader(k), CacheObjects), Port(consumer, CacheObjects)) in r
  {
    if n == 0 then []
    else FeedEdges(consumer, n - 1) + [Edge(Port(Uploader(n - 1), CacheObjects), Port(consumer, CacheObjects))]
  }

  lemma {:induction false} FeedFanIn(consumer: Filter, n: nat)
    ensures Sources(FeedEdges(consumer, n), Port(consumer, CacheObjects)) == UploaderOutputs(n)
  {
    if n > 0 {
      var target := Port(consumer, CacheObjects);
      var last := Edge(Port(Uploader(n - 1), CacheObjects), target);
      FeedFanIn(consumer, n - 1);
      SourcesSnoc(FeedEdges(consumer, n - 1), last, target);
    }
  }

  /** The first `n` passes of the loop in `createSyncPipeline` that looks
      each uploader up by name and wires its `CacheObjects` output to
      `consumer`'s. The loop fails, at the first name that is missing,
      exactly when some uploader is not registered; otherwise only edges
      change. */
  function ConnectUploadersTo(w: Wiring, consumer: Filter, n: nat): (r: Result<Wiring, Error>)
    ensures r.Success? <==> forall k :: 0 <= k < n ==> UploaderName(k) in Names(w.upload)
    ensures r.Failure? ==>
              exists k :: 0 <= k < n && r.error == UnknownExecutable(UploaderName(k))
                          && UploaderName(k) !in Names(w.upload)
                          && forall k' :: 0 <= k' < k ==> UploaderName(k') in Names(w.upload)
    ensures r.Success? ==> r.value == w.(edges := w.edges + FeedEdges(consumer, n))
  {
    if n == 0 then
      assert w.edges + FeedEdges(consumer, 0) == w.edges;
      Success(w)
    else
      match ConnectUploadersTo(w, consumer, n - 1)
      case Failure(e) => Failure(e)
      case Success(prev) =>
        match GetExecutable(prev.upload, UploaderName(n - 1))
        case None => Failure(UnknownExecutable(UploaderName(n - 1)))
        case Some(uploader) =>
          assert w.edges + FeedEdges(consumer, n)
              == prev.edges + [Edge(Port(uploader, CacheObjects), Port(consumer, CacheObjects))];
          Success(Connect(prev, Port(uploader, CacheObjects), Port(consumer, CacheObjects)))
  }

  const VisibleSetGeneratorHandle: Filter := Member(VisibleSetGeneratorName)
  const RenderingSetGeneratorHandle: Filter := Member(RenderingSetGeneratorName)

  /** `createSyncPipeline`: the render pipeline gains the visible-set
      generator only, the upload pipeline the uploaders, and the uploader
      lookups by name cannot fail. The uploaders' edges into the render
      filter come first, then their edges into the histogram filter. */
  function CreateSyncPipeline(w: Wiring): (r: Result<Wiring, Error>)
    ensures r.Success?
    ensures r.value.render.members == w.render.members + [Registration(VisibleSetGeneratorName, VisibleSetGenerator)]
    ensures r.value.upload.members == w.upload.members + UploaderRegistrations(NUploadThreads)
    ensures r.value.edges
         == w.edges + AllUploaderEdges(VisibleSetGeneratorHandle, RenderFilter, NUploadThreads)
                    + FeedEdges(HistogramFilter, NUploadThreads)
  {
    var w1 := w.(render := Add(w.render, VisibleSetGeneratorName, VisibleSetGenerator));
    var visibleSetGenerator := Member(VisibleSetGeneratorName);
    var w2 := CreateAndConnectUploaders(w1, visibleSetGenerator, RenderFilter);
    UploadersRegistered(w1.upload, NUploadThreads);
    assert w2.upload == Pipeline(w1.upload.members + UploaderRegistrations(NUploadThreads));
    ConnectUploadersTo(w2, HistogramFilter, NUploadThreads)
  }

  /** Edges of the synchronous topology: each uploader is wired to the
      visible-set generator and feeds both the render filter and the
      histogram filter. */
  lemma SyncWiring(w: Wiring)
    ensures var r := CreateSyncPipeline(w).value;
            forall k :: 0 <= k < NUploadThreads ==>
              && UploaderWired(r.edges, k, VisibleSetGeneratorHandle, RenderFilter)
              && Edge(Port(Uploader(k), CacheObjects), Port(HistogramFilter, CacheObjects)) in r.edges
  {
    var edges := CreateSyncPipeline(w).value.edges;
    var uploads := AllUploaderEdges(VisibleSetGeneratorHandle, RenderFilter, NUploadThreads);
    var feeds := FeedEdges(HistogramFilter, NUploadThreads);
    assert edges == (w.edges + uploads) + feeds;
    UploadersWired(VisibleSetGeneratorHandle, RenderFilter, NUploadThreads);
    forall k | 0 <= k < NUploadThreads
      ensures UploaderWired(edges, k, VisibleSetGeneratorHandle, RenderFilter)
      ensures Edge(Port(Uploader(k), CacheObjects), Port(HistogramFilter, CacheObjects)) in edges
    {
      assert UploaderWired(uploads, k, VisibleSetGeneratorHandle, RenderFilter);
      assert Edge(Port(Uploader(k), CacheObjects), Port(HistogramFilter, CacheObjects)) in feeds;
    }
  }

  /** Every edge the synchronous topology adds feeds an uploader or the
      render or histogram filter's `CacheObjects`. */
  lemma SyncTargets(w: Wiring)
    ensures var r := CreateSyncPipeline(w).value;
            forall e :: e in r.edges ==>
              || e in w.edges
              || UploaderEdgeTarget(e.target, RenderFilter)
              || e.target == Port(HistogramFilter, CacheObjects)
  {
    var edges := CreateSyncPipeline(w).value.edges;
    var uploads := AllUploaderEdges(VisibleSetGeneratorHandle, RenderFilter, NUploadThreads);
    var feeds := FeedEdges(HistogramFilter, NUploadThreads);
    assert edges == (w.edges + uploads) + feeds;
    UploaderTargets(VisibleSetGeneratorHandle, RenderFilter, NUploadThreads);
    forall e | e in edges
      ensures || e in w.edges
              || UploaderEdgeTarget(e.target, RenderFilter)
              || e.target == Port(HistogramFilter, CacheObjects)
    {
      if e !in w.edges && e !in uploads {
        assert e in feeds;
      }
    }
  }

  /** Producers of the synchronous topology: the render filter's and the
      histogram filter's `CacheObjects` inputs each gain exactly the four
      uploaders. */
  lemma SyncFanIn(w: Wiring)
    ensures var r := CreateSyncPipeline(w).value;
            && Sources(r.edges, Port(RenderFilter, CacheObjects))
               == Sources(w.edges, Port(RenderFilter, CacheObjects)) + UploaderOutputs(NUploadThreads)
            && Sources(r.edges, Port(HistogramFilter, CacheObjects))
               == Sources(w.edges, Port(HistogramFilter, CacheObjects)) + UploaderOutputs(NUploadThreads)
  {
    var uploads := AllUploaderEdges(VisibleSetGeneratorHandle, RenderFilter, NUploadThreads);
    var feeds := FeedEdges(HistogramFilter, NUploadThreads);
    var render := Port(RenderFilter, CacheObjects);
    var hist := Port(HistogramFilter, CacheObjects);
    assert CreateSyncPipeline(w).value.edges == (w.edges + uploads) + feeds;
    UploaderTargets(VisibleSetGeneratorHandle, RenderFilter, NUploadThreads);
    UploaderFanIn(VisibleSetGeneratorHandle, RenderFilter, NUploadThreads);
    FeedFanIn(HistogramFilter, NUploadThreads);
    SourcesAppend(w.edges + uploads, feeds, render);
    SourcesUnaffected(w.edges + uploads, feeds, render);
    SourcesAppend(w.edges, uploads, render);
    SourcesAppend(w.edges + uploads, feeds, hist);
    SourcesUnaffected(w.edges, uploads, hist);
  }

  /** The inputs the asynchronous topology wires besides the uploaders'. */
  function AsyncInputs(): set<Port> {
    { Port(RenderingSetGeneratorHandle, VisibleNodes),
      Port(RenderFilter, CacheObjects),
      Port(HistogramFilter, CacheObjects),
      Port(RedrawFilter, RenderingDone) }
  }

  /** The four edges `createAsyncPipeline` wires before the uploaders. */
  function AsyncEdges(): seq<Edge> {
    [ Edge(Port(VisibleSetGeneratorHandle, VisibleNodes), Port(RenderingSetGeneratorHandle, VisibleNodes)),
      Edge(Port(RenderingSetGeneratorHandle, CacheObjects), Port(RenderFilter, CacheObjects)),
      Edge(Port(RenderingSetGeneratorHandle, CacheObjects), Port(HistogramFilter, CacheObjects)),
      Edge(Port(RenderingSetGeneratorHandle, RenderingDone), Port(RedrawFilter, RenderingDone)) ]
  }

  /** `createAsyncPipeline`: the render pipeline gains the visible-set and
      rendering-set generators, in that order, the upload pipeline the
      uploaders; the rendering-set generator's four edges come first, then
      the uploaders' edges into the redraw filter. */
  function CreateAsyncPipeline(w: Wiring): (r: Wiring)
    ensures r.render.members == w.render.members
              + [Registration(VisibleSetGeneratorName, VisibleSetGenerator),
                 Registration(RenderingSetGeneratorName, RenderingSetGenerator)]
    ensures r.upload.members == w.upload.members + UploaderRegistrations(NUploadThreads)
    ensures r.edges == w.edges + AsyncEdges() + AllUploaderEdges(VisibleSetGeneratorHandle, RedrawFilter, NUploadThreads)
  {
    var visibleSetGenerator := Member(VisibleSetGeneratorName);
    var renderingSetGenerator := Member(RenderingSetGeneratorName);
    var w1 := w.(render := Add(w.render, VisibleSetGeneratorName, VisibleSetGenerator));
    var w2 := w1.(render := Add(w1.render, RenderingSetGeneratorName, RenderingSetGenerator));
    var w3 := Connect(w2, Port(visibleSetGenerator, VisibleNodes), Port(renderingSetGenerator, VisibleNodes));
    var w4 := Connect(w3, Port(renderingSetGenerator, CacheObjects), Port(RenderFilter, CacheObjects));
    var w5 := Connect(w4, Port(renderingSetGenerator, CacheObjects), Port(HistogramFilter, CacheObjects));
    var w6 := Connect(w5, Port(renderingSetGenerator, RenderingDone), Port(RedrawFilter, RenderingDone));
    assert w6.edges == w.edges + AsyncEdges();
    CreateAndConnectUploaders(w6, visibleSetGenerator, RedrawFilter)
  }

  /** Edges of the asynchronous topology: the rendering-set generator reads
      the visible nodes, fans its cache objects out to the render and
      histogram filters and signals the redraw filter; each uploader is
      wired to the visible-set generator and feeds the redraw filter. */
  lemma AsyncWiring(w: Wiring)
    ensures var r := CreateAsyncPipeline(w);
            && (forall e :: e in AsyncEdges() ==> e in r.edges)
            && (forall k :: 0 <= k < NUploadThreads ==>
                  UploaderWired(r.edges, k, VisibleSetGeneratorHandle, RedrawFilter))
  {
    var edges := CreateAsyncPipeline(w).edges;
    var uploads := AllUploaderEdges(VisibleSetGeneratorHandle, RedrawFilter, NUploadThreads);
    assert edges == (w.edges + AsyncEdges()) + uploads;
    UploadersWired(VisibleSetGeneratorHandle, RedrawFilter, NUploadThreads);
    forall k | 0 <= k < NUploadThreads
      ensures UploaderWired(edges, k, VisibleSetGeneratorHandle, RedrawFilter)
    {
      assert UploaderWired(uploads, k, VisibleSetGeneratorHandle, RedrawFilter);
    }
  }

  /** Every edge the asynchronous topology adds feeds an uploader, the
      redraw filter's `CacheObjects` or one of the rendering-set
      generator's consumers. */
  lemma AsyncTargets(w: Wiring)
    ensures var r := CreateAsyncPipeline(w);
            forall e :: e in r.edges ==>
              || e in w.edges
              || UploaderEdgeTarget(e.target, RedrawFilter)
              || e.target in AsyncInputs()
  {
    var edges := CreateAsyncPipeline(w).edges;
    var uploads := AllUploaderEdges(VisibleSetGeneratorHandle, RedrawFilter, NUploadThreads);
    UploaderTargets(VisibleSetGeneratorHandle, RedrawFilter, NUploadThreads);
    AsyncEdgeTargets();
    forall e | e in edges
      ensures || e in w.edges
              || UploaderEdgeTarget(e.target, RedrawFilter)
              || e.target in AsyncInputs()
    {
      assert e in w.edges || e in AsyncEdges() || e in uploads;
    }
  }

  /** The rendering-set generator's four edges end in `AsyncInputs`. */
  lemma AsyncEdgeTargets()
    ensures forall e :: e in AsyncEdges() ==> e.target in AsyncInputs()
  {
    var a := AsyncEdges();
    assert forall e :: e in a ==> e == a[0] || e == a[1] || e == a[2] || e == a[3];
  }

  /** The producer one edge wires into `target`, if it ends there. */
  function EdgeSource(e: Edge, target: Port): seq<Port> {
    if e.target == target then [e.source] else []
  }

  lemma SourcesOfFour(a: Edge, b: Edge, c: Edge, d: Edge, target: Port)
    ensures Sources([a, b, c, d], target)
         == EdgeSource(a, target) + EdgeSource(b, target) + EdgeSource(c, target) + EdgeSource(d, target)
  {
    SourcesSnoc([], a, target);
    assert [] + [a] == [a];
    SourcesSnoc([a], b, target);
    assert [a] + [b] == [a, b];
    SourcesSnoc([a, b], c, target);
    assert [a, b] + [c] == [a, b, c];
    SourcesSnoc([a, b, c], d, target);
    assert [a, b, c] + [d] == [a, b, c, d];
  }

  /** Producers wired by the rendering-set generator's four edges. */
  lemma SourcesOfAsyncEdges(target: Port)
    requires target == Port(RenderFilter, CacheObjects) || target == Port(HistogramFilter, CacheObjects)
    ensures Sources(AsyncEdges(), target) == [Port(RenderingSetGeneratorHandle, CacheObjects)]
  {
    var e := AsyncEdges();
    SourcesOfFour(e[0], e[1], e[2], e[3], target);
    assert e == [e[0], e[1], e[2], e[3]];
  }

  /** None of the four edges feeds the redraw filter's `CacheObjects`. */
  lemma AsyncEdgesMissRedraw()
    ensures Sources(AsyncEdges(), Port(RedrawFilter, CacheObjects)) == []
  {
    var e := AsyncEdges();
    SourcesOfFour(e[0], e[1], e[2], e[3], Port(RedrawFilter, CacheObjects));
    assert e == [e[0], e[1], e[2], e[3]];
  }

  /** Producers of the asynchronous topology: the render and histogram
      filters' `CacheObjects` inputs each gain the rendering-set generator
      alone. */
  lemma AsyncFanIn(w: Wiring)
    ensures var r := CreateAsyncPipeline(w);
            && Sources(r.edges, Port(RenderFilter, CacheObjects))
               == Sources(w.edges, Port(RenderFilter, CacheObjects)) + [Port(RenderingSetGeneratorHandle, CacheObjects)]
            && Sources(r.edges, Port(HistogramFilter, CacheObjects))
               == Sources(w.edges, Port(HistogramFilter, CacheObjects)) + [Port(RenderingSetGeneratorHandle, CacheObjects)]
  {
    var uploads := AllUploaderEdges(VisibleSetGeneratorHandle, RedrawFilter, NUploadThreads);
    UploaderTargets(VisibleSetGeneratorHandle, RedrawFilter, NUploadThreads);
    AsyncFanInAt(w.edges, uploads, Port(RenderFilter, CacheObjects));
    AsyncFanInAt(w.edges, uploads, Port(HistogramFilter, CacheObjects));
  }

  /** One of the rendering-set generator's consumers gains it as a producer,
      and nothing from edges that feed uploaders or the redraw filter. */
  lemma AsyncFanInAt(base: seq<Edge>, uploads: seq<Edge>, target: Port)
    requires target == Port(RenderFilter, CacheObjects) || target == Port(HistogramFilter, CacheObjects)
    requires forall e :: e in uploads ==> UploaderEdgeTarget(e.target, RedrawFilter)
    ensures Sources(base + AsyncEdges() + uploads, target)
         == Sources(base, target) + [Port(RenderingSetGeneratorHandle, CacheObjects)]
  {
    SourcesOfAsyncEdges(target);
    SourcesUnaffected(base + AsyncEdges(), uploads, target);
    SourcesAppend(base, AsyncEdges(), target);
  }

  /** The redraw filter's `CacheObjects` input gains exactly the four
      uploaders. */
  lemma AsyncRedrawFanIn(w: Wiring)
    ensures Sources(CreateAsyncPipeline(w).edges, Port(RedrawFilter, CacheObjects))
         == Sources(w.edges, Port(RedrawFilter, CacheObjects)) + UploaderOutputs(NUploadThreads)
  {
    var uploads := AllUploaderEdges(VisibleSetGeneratorHandle, RedrawFilter, NUploadThreads);
    var redraw := Port(RedrawFilter, CacheObjects);
    UploaderFanIn(VisibleSetGeneratorHandle, RedrawFilter, NUploadThreads);
    AsyncEdgesMissRedraw();
    SourcesAppend(w.edges + AsyncEdges(), uploads, redraw);
    SourcesAppend(w.edges, AsyncEdges(), redraw);
  }

  // ---------------------------------------------------------------------
  // One frame: promises, schedule and node availability
  // ---------------------------------------------------------------------

  /** The units `render` hands to an executor. */
  datatype Stage =
    | RedrawStage
    | RenderPipelineStage
    | UploadPipelineStage
    | SendHistogramStage
    | HistogramStage

  datatype Assignment = Assignment(stage: Stage, executor: ExecutorKind)

  /** How many of the frame's nodes can be drawn now and how many are still
      missing. */
  datatype NodeAvailability = NodeAvailability(nAvailable: nat, nNotAvailable: nat)

  /** Everything one call of `render` sets up: the wiring, the input ports
      given a value by a promise (in the order they are set), the executor
      assignments (in scheduling order) and the reported availability. */
  datatype FrameSetup = FrameSetup(
    wiring: Wiring,
    promises: seq<Port>,
    schedule: seq<Assignment>,
    availability: NodeAvailability)

  /** The histogram filter's result goes to the send-histogram filter. */
  const HistogramEdge: Edge := Edge(Port(HistogramFilter, Histogram), Port(SendHistogramFilter, Histogram))

  /** The wiring `render` has made before it builds either topology. */
  const FrameStart: Wiring := Connect(EmptyWiring, HistogramEdge.source, HistogramEdge.target)

  /** The inputs of the frame that are fed by a promise rather than an edge:
      two on the histogram filter, two on the send-histogram filter, six on
      the visible-set generator and three on the render filter. */
  function EntryPorts(): set<Port> {
    { Port(HistogramFilter, Frustum), Port(HistogramFilter, RelativeViewport),
      Port(SendHistogramFilter, RelativeViewport), Port(SendHistogramFilter, Id),
      Port(VisibleSetGeneratorHandle, Frustum), Port(VisibleSetGeneratorHandle, Frame),
      Port(VisibleSetGeneratorHandle, DataRange), Port(VisibleSetGeneratorHandle, Params),
      Port(VisibleSetGeneratorHandle, Viewport), Port(VisibleSetGeneratorHandle, ClipPlanes),
      Port(RenderFilter, Frustum), Port(RenderFilter, Viewport), Port(RenderFilter, ClipPlanes) }
  }

  ghost predicate NoDuplicates<T>(s: seq<T>) {
    forall i, j :: 0 <= i < j < |s| ==> s[i] != s[j]
  }

  /** The scheduling calls of `render`, in order: the redraw filter only in
      asynchronous mode, then the two pipelines and the two histogram
      filters. */
  function Schedule(synchronous: bool): seq<Assignment> {
    (if synchronous then [] else [Assignment(RedrawStage, RenderExecutor)])
    + [ Assignment(RenderPipelineStage, RenderExecutor),
        Assignment(UploadPipelineStage, UploadExecutor),
        Assignment(SendHistogramStage, ComputeExecutor),
        Assignment(HistogramStage, ComputeExecutor) ]
  }

  /** The promises `render` sets, in the order it sets them, given the
      handle the lookup of the visible-set generator returned. */
  function FramePromises(visibleSetGenerator: Filter): seq<Port> {
    [ Port(HistogramFilter, Frustum), Port(HistogramFilter, RelativeViewport),
      Port(SendHistogramFilter, RelativeViewport), Port(SendHistogramFilter, Id),
      Port(visibleSetGenerator, Frustum), Port(visibleSetGenerator, Frame),
      Port(visibleSetGenerator, DataRange), Port(visibleSetGenerator, Params),
      Port(visibleSetGenerator, Viewport), Port(visibleSetGenerator, ClipPlanes),
      Port(RenderFilter, Frustum), Port(RenderFilter, Viewport), Port(RenderFilter, ClipPlanes) ]
  }

  /** The part of `render` after the topology is built: look the
      visible-set generator up and set its promises, schedule the stages,
      and read the availability, from the rendering-set generator (looked
      up too) in asynchronous mode. Fails exactly when a lookup does. */
  function FinishFrame<Node>(synchronous: bool, w: Wiring, visibleNodes: seq<Node>, renderingAvailability: NodeAvailability)
    : (r: Result<FrameSetup, Error>)
    ensures r.Success? <==>
              && VisibleSetGeneratorName in Names(w.render)
              && (!synchronous ==> RenderingSetGeneratorName in Names(w.render))
    ensures r.Failure? ==>
              r.error == UnknownExecutable(
                if VisibleSetGeneratorName !in Names(w.render) then VisibleSetGeneratorName else RenderingSetGeneratorName)
    ensures r.Success? ==>
              && r.value.wiring == w
              && r.value.promises == FramePromises(VisibleSetGeneratorHandle)
              && r.value.schedule == Schedule(synchronous)
              && r.value.availability
                 == if synchronous then NodeAvailability(|visibleNodes|, 0) else renderingAvailability
  {
    match GetExecutable(w.render, VisibleSetGeneratorName)
    case None => Failure(UnknownExecutable(VisibleSetGeneratorName))
    case Some(visibleSetGenerator) =>
      var promises := FramePromises(visibleSetGenerator);
      var schedule := Schedule(synchronous);
      if synchronous then
        Success(FrameSetup(w, promises, schedule, NodeAvailability(|visibleNodes|, 0)))
      else
        match GetExecutable(w.render, RenderingSetGeneratorName)
        case None => Failure(UnknownExecutable(RenderingSetGeneratorName))
        case Some(_) => Success(FrameSetup(w, promises, schedule, renderingAvailability))
  }

  /** `render` for one frame: set the histogram filters' promises and wire
      the histogram edge, build the topology of the mode, then finish the
      frame. The synchronous topology reports every visible node as
      available; the asynchronous one reports what the rendering-set
      generator computed, given here as `renderingAvailability`. The
      lookups by name cannot fail. */
  function Render<Node>(synchronous: bool, visibleNodes: seq<Node>, renderingAvailability: NodeAvailability)
    : (r: Result<FrameSetup, Error>)
    ensures r.Success?
    ensures synchronous ==> r.value.availability == NodeAvailability(|visibleNodes|, 0)
    ensures !synchronous ==> r.value.availability == renderingAvailability
  {
    var built := if synchronous then CreateSyncPipeline(FrameStart) else Success(CreateAsyncPipeline(FrameStart));
    match built
    case Failure(e) => Failure(e)
    case Success(w) =>
      assert Names(w.render)[0] == VisibleSetGeneratorName;
      assert !synchronous ==> Names(w.render)[1] == RenderingSetGeneratorName;
      FinishFrame(synchronous, w, visibleNodes, renderingAvailability)
  }

  /** A frame records the synchronous or asynchronous topology built on top
      of the histogram edge, the thirteen promises and the schedule of its
      mode. */
  lemma FrameContents<Node>(synchronous: bool, visibleNodes: seq<Node>, renderingAvailability: NodeAvailability)
    ensures var f := Render(synchronous, visibleNodes, renderingAvailability).value;
            && f.wiring == (if synchronous then CreateSyncPipeline(FrameStart).value else CreateAsyncPipeline(FrameStart))
            && f.promises == FramePromises(VisibleSetGeneratorHandle)
            && f.schedule == Schedule(synchronous)
  {
  }

  /** The render pipeline holds the visible-set generator alone, or it
      followed by the rendering-set generator, and the upload pipeline holds
      the four uploaders; the histogram edge stays wired. */
  lemma FrameWiring<Node>(synchronous: bool, visibleNodes: seq<Node>, renderingAvailability: NodeAvailability)
    ensures var f := Render(synchronous, visibleNodes, renderingAvailability).value;
            && Names(f.wiring.render)
               == (if synchronous then [VisibleSetGeneratorName] else [VisibleSetGeneratorName, RenderingSetGeneratorName])
            && f.wiring.upload.members == UploaderRegistrations(NUploadThreads)
            && HistogramEdge in f.wiring.edges
  {
    FrameContents(synchronous, visibleNodes, renderingAvailability);
    FrameStartShape();
    if synchronous {
      SyncFrameStart(FrameStart);
    } else {
      AsyncFrameStart(FrameStart);
    }
  }

  /** Before either topology is built, both pipelines are empty and the
      histogram edge is wired. */
  lemma FrameStartShape()
    ensures FrameStart.render.members == [] && FrameStart.upload.members == []
    ensures HistogramEdge in FrameStart.edges
  {
  }

  /** What the synchronous topology makes of a wiring with empty pipelines
      and the histogram edge. */
  lemma SyncFrameStart(w: Wiring)
    requires w.render.members == [] && w.upload.members == []
    requires HistogramEdge in w.edges
    ensures var r := CreateSyncPipeline(w).value;
            && Names(r.render) == [VisibleSetGeneratorName]
            && r.upload.members == UploaderRegistrations(NUploadThreads)
            && HistogramEdge in r.edges
  {
    var r := CreateSyncPipeline(w).value;
    NamesOf(r.render, [Registration(VisibleSetGeneratorName, VisibleSetGenerator)]);
  }

  /** What the asynchronous topology makes of a wiring with empty pipelines
      and the histogram edge. */
  lemma AsyncFrameStart(w: Wiring)
    requires w.render.members == [] && w.upload.members == []
    requires HistogramEdge in w.edges
    ensures var r := CreateAsyncPipeline(w);
            && Names(r.render) == [VisibleSetGeneratorName, RenderingSetGeneratorName]
            && r.upload.members == UploaderRegistrations(NUploadThreads)
            && HistogramEdge in r.edges
  {
    var r := CreateAsyncPipeline(w);
    NamesOf(r.render, [Registration(VisibleSetGeneratorName, VisibleSetGenerator),
                       Registration(RenderingSetGeneratorName, RenderingSetGenerator)]);
  }

  /** The names of a pipeline with one or two registrations. */
  lemma NamesOf(p: Pipeline, members: seq<Registration>)
    requires 1 <= |members| <= 2
    requires p.members == [] + members
    ensures Names(p) == if |members| == 1 then [members[0].name] else [members[0].name, members[1].name]
  {
  }

  lemma VisibleSetGeneratorIsNoUploader()
    ensures !IsUploader(VisibleSetGeneratorHandle)
  {
    assert VisibleSetGeneratorName[0] != UploaderPrefix[0];
  }

  /** An edge the uploader loop may wire never feeds an entry port. */
  lemma UploaderTargetNoEntry(t: Port, output: Filter)
    requires UploaderEdgeTarget(t, output)
    requires output == RenderFilter || output == RedrawFilter
    ensures t !in EntryPorts()
  {
    VisibleSetGeneratorIsNoUploader();
  }

  /** No edge of `edges` feeds an entry port. */
  ghost predicate AvoidsEntryPorts(edges: seq<Edge>) {
    forall e :: e in edges ==> e.target !in EntryPorts()
  }

  lemma AvoidsAppend(a: seq<Edge>, b: seq<Edge>)
    requires AvoidsEntryPorts(a) && AvoidsEntryPorts(b)
    ensures AvoidsEntryPorts(a + b)
  {
  }

  lemma UploaderEdgesAvoid(output: Filter)
    requires output == RenderFilter || output == RedrawFilter
    ensures AvoidsEntryPorts(AllUploaderEdges(VisibleSetGeneratorHandle, output, NUploadThreads))
  {
    var uploads := AllUploaderEdges(VisibleSetGeneratorHandle, output, NUploadThreads);
    UploaderTargets(VisibleSetGeneratorHandle, output, NUploadThreads);
    forall e | e in uploads
      ensures e.target !in EntryPorts()
    {
      UploaderTargetNoEntry(e.target, output);
    }
  }

  lemma FeedEdgesAvoid()
    ensures AvoidsEntryPorts(FeedEdges(HistogramFilter, NUploadThreads))
  {
    assert Port(HistogramFilter, CacheObjects) !in EntryPorts();
  }

  /** The synchronous topology wires no edge into an entry port. */
  lemma SyncAvoidsEntryPorts(w: Wiring)
    requires AvoidsEntryPorts(w.edges)
    ensures AvoidsEntryPorts(CreateSyncPipeline(w).value.edges)
  {
    var uploads := AllUploaderEdges(VisibleSetGeneratorHandle, RenderFilter, NUploadThreads);
    var feeds := FeedEdges(HistogramFilter, NUploadThreads);
    UploaderEdgesAvoid(RenderFilter);
    FeedEdgesAvoid();
    AvoidsAppend(w.edges, uploads);
    AvoidsAppend(w.edges + uploads, feeds);
  }

  lemma AsyncInputsNoEntry()
    ensures forall t :: t in AsyncInputs() ==> t !in EntryPorts()
  {
    assert RenderingSetGeneratorName[0] != VisibleSetGeneratorName[0];
  }

  /** The asynchronous topology wires no edge into an entry port. */
  lemma AsyncAvoidsEntryPorts(w: Wiring)
    requires AvoidsEntryPorts(w.edges)
    ensures AvoidsEntryPorts(CreateAsyncPipeline(w).edges)
  {
    AsyncInputsNoEntry();
    assert AvoidsEntryPorts(AsyncEdges());
    UploaderEdgesAvoid(RedrawFilter);
    AvoidsAppend(w.edges, AsyncEdges());
    AvoidsAppend(w.edges + AsyncEdges(), AllUploaderEdges(VisibleSetGeneratorHandle, RedrawFilter, NUploadThreads));
  }

  lemma FrameStartAvoidsEntryPorts()
    ensures AvoidsEntryPorts(FrameStart.edges)
  {
    assert FrameStart.edges == [HistogramEdge];
  }

  /** No input of the frame is fed both by a promise and by an edge. */
  lemma PromisedInputsUnwired<Node>(synchronous: bool, visibleNodes: seq<Node>, renderingAvailability: NodeAvailability)
    ensures var f := Render(synchronous, visibleNodes, renderingAvailability).value;
            AvoidsEntryPorts(f.wiring.edges)
  {
    FrameContents(synchronous, visibleNodes, renderingAvailability);
    FrameStartAvoidsEntryPorts();
    if synchronous {
      SyncAvoidsEntryPorts(FrameStart);
    } else {
      AsyncAvoidsEntryPorts(FrameStart);
    }
  }

  lemma EntryPromisesDistinct()
    ensures NoDuplicates(FramePromises(VisibleSetGeneratorHandle))
    ensures forall p :: p in FramePromises(VisibleSetGeneratorHandle) <==> p in EntryPorts()
  {
    var s := FramePromises(VisibleSetGeneratorHandle);
    forall i, j | 0 <= i < j < |s|
      ensures s[i] != s[j]
    {
      assert s[i].filter != s[j].filter || s[i].name != s[j].name;
    }
  }

  /** Each of the thirteen entry promises is set exactly once, and no other
      promise is set. */
  lemma PromisesSetOnce<Node>(synchronous: bool, visibleNodes: seq<Node>, renderingAvailability: NodeAvailability)
    ensures var f := Render(synchronous, visibleNodes, renderingAvailability).value;
            && |f.promises| == 13
            && NoDuplicates(f.promises)
            && (forall p :: p in f.promises <==> p in EntryPorts())
  {
    FrameContents(synchronous, visibleNodes, renderingAvailability);
    EntryPromisesDistinct();
  }

  /** Who runs what: the redraw filter is scheduled, on the render
      executor, exactly in asynchronous mode; the render pipeline runs on
      the render executor, the upload pipeline on the upload executor and
      both histogram filters on the compute executor; no stage is scheduled
      twice. */
  ghost predicate ScheduledAsIntended(s: seq<Assignment>, synchronous: bool) {
    && ((exists i :: 0 <= i < |s| && s[i].stage == RedrawStage) <==> !synchronous)
    && (!synchronous ==> Assignment(RedrawStage, RenderExecutor) in s)
    && Assignment(RenderPipelineStage, RenderExecutor) in s
    && Assignment(UploadPipelineStage, UploadExecutor) in s
    && Assignment(SendHistogramStage, ComputeExecutor) in s
    && Assignment(HistogramStage, ComputeExecutor) in s
    && (forall i, j :: 0 <= i < j < |s| ==> s[i].stage != s[j].stage)
  }

  lemma ScheduleAssignments(synchronous: bool)
    ensures ScheduledAsIntended(Schedule(synchronous), synchronous)
  {
    var s := Schedule(synchronous);
    if !synchronous {
      assert s[0].stage == RedrawStage;
    }
  }

  /** The executor assignments of `render` are the intended ones. */
  lemma FrameSchedule<Node>(synchronous: bool, visibleNodes: seq<Node>, renderingAvailability: NodeAvailability)
    ensures ScheduledAsIntended(Render(synchronous, visibleNodes, renderingAvailability).value.schedule, synchronous)
  {
    FrameContents(synchronous, visibleNodes, renderingAvailability);
    ScheduleAssignments(synchronous);
  }

  /** The executors' pools: two render and two compute threads, and one
      upload thread per uploader a frame registers (`FrameWiring`), each
      uploader knowing the pool size as its count. */
  lemma ExecutorPools(uploaders: seq<Registration>)
    requires uploaders == UploaderRegistrations(NUploadThreads)
    ensures ThreadCount(RenderExecutor) == 2 && ThreadCount(ComputeExecutor) == 2
    ensures ThreadCount(UploadExecutor) == |uploaders|
    ensures forall k :: 0 <= k < |uploaders| ==> uploaders[k].kind == DataUpload(k, ThreadCount(UploadExecutor))
  {
  }
}
