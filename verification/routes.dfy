/** Mappings, the per-method buckets built from them, and the two lookups the router's
    behaviour is specified by: the scan of one bucket and the scan of the flat list. */
module Routes {
  import opened Lang
  import opened Http
  import opened Regex
  import opened RouteParams

  /** A handler of the canonical shape (context, route parameters, request). A handler of
      one of the two simpler shapes is stored inside the adapter the builder wraps it in;
      the adapter itself is never null, even when the handler it wraps is. */
  datatype RouteHandler<H> =
    | Direct(handler: H)
    | IgnoringParams(wrapped: Nullable<H>)
    | IgnoringContextAndParams(wrapped: Nullable<H>)

  /** A registered mapping, as the builder keeps it. */
  datatype MappingWithMethods<H> = MappingWithMethods(methods: set<HttpMethod>, routePattern: Pattern, handler: RouteHandler<H>)

  /** A mapping inside a method's bucket: the method set is implied by the bucket. */
  datatype Mapping<H> = Mapping(routePattern: Pattern, handler: RouteHandler<H>)

  function WithoutMethods<H>(x: MappingWithMethods<H>): Mapping<H>
  {
    Mapping(x.routePattern, x.handler)
  }

  /** The bucket of method m after replaying the mappings ms in order. */
  function Bucket<H>(ms: seq<MappingWithMethods<H>>, m: HttpMethod): seq<Mapping<H>>
  {
    if ms == [] then []
    else
      var n := |ms| - 1;
      Bucket(ms[..n], m) + (if m in ms[n].methods then [WithoutMethods(ms[n])] else [])
  }

  /** The positions, in ms, of the mappings that list method m, in increasing order. */
  function Positions<H>(ms: seq<MappingWithMethods<H>>, m: HttpMethod): (ps: seq<nat>)
    ensures forall k :: 0 <= k < |ps| ==> ps[k] < |ms| && m in ms[ps[k]].methods
    ensures forall i :: 0 <= i < |ms| && m in ms[i].methods ==> i in ps
    ensures forall j, k :: 0 <= j < k < |ps| ==> ps[j] < ps[k]
  {
    if ms == [] then []
    else
      var n := |ms| - 1;
      Positions(ms[..n], m) + (if m in ms[n].methods then [n] else [])
  }

  /** The bucket of m holds exactly the mappings that list m, each once, in the order
      they were registered. */
  lemma {:induction false} BucketIsSelection<H>(ms: seq<MappingWithMethods<H>>, m: HttpMethod)
    ensures |Bucket(ms, m)| == |Positions(ms, m)|
    ensures forall k :: 0 <= k < |Positions(ms, m)| ==> Bucket(ms, m)[k] == WithoutMethods(ms[Positions(ms, m)[k]])
  {
    if ms != [] {
      var n := |ms| - 1;
      BucketIsSelection(ms[..n], m);
      var ps := Positions(ms[..n], m);
      forall k | 0 <= k < |ps| ensures ms[..n][ps[k]] == ms[ps[k]] { }
    }
  }

  /** The index of the first mapping of a bucket whose pattern matches the whole path. */
  function FirstMatching<H>(bucket: seq<Mapping<H>>, engine: Engine, path: string): (r: Option<nat>)
    ensures r.None? <==> forall k :: 0 <= k < |bucket| ==> !FullMatch(engine, bucket[k].routePattern, path)
    ensures r.Some? ==>
              && r.value < |bucket|
              && FullMatch(engine, bucket[r.value].routePattern, path)
              && forall k :: 0 <= k < r.value ==> !FullMatch(engine, bucket[k].routePattern, path)
  {
    if bucket == [] then None
    else if FullMatch(engine, bucket[0].routePattern, path) then Some(0)
    else
      match FirstMatching(bucket[1..], engine, path)
      case None => None
      case Some(k) => Some(k + 1)
  }

  /** Whether a registered mapping serves a request: it lists the request's method and
      its pattern matches the whole URI. */
  predicate Serves<H>(x: MappingWithMethods<H>, engine: Engine, request: Request)
  {
    request.requestMethod in x.methods && FullMatch(engine, x.routePattern, request.uri)
  }

  /** The index of the first registered mapping that serves the request, scanning the
      flat list in registration order. */
  function LinearLookup<H>(ms: seq<MappingWithMethods<H>>, engine: Engine, request: Request): (r: Option<nat>)
    ensures r.None? <==> forall i :: 0 <= i < |ms| ==> !Serves(ms[i], engine, request)
    ensures r.Some? ==>
              && r.value < |ms|
              && Serves(ms[r.value], engine, request)
              && forall i :: 0 <= i < r.value ==> !Serves(ms[i], engine, request)
  {
    if ms == [] then None
    else if Serves(ms[0], engine, request) then Some(0)
    else
      match LinearLookup(ms[1..], engine, request)
      case None => None
      case Some(i) => Some(i + 1)
  }

  /** What handlerForRequest hands back: the winning mapping's handler, bound to the
      router's context and to route parameters over the winning match. */
  datatype Dispatch<H, C> = Dispatch(handler: RouteHandler<H>, context: C, params: MatcherRouteParams)

  /** The result of scanning one bucket. */
  function Select<H, C>(bucket: seq<Mapping<H>>, engine: Engine, path: string, ctx: C): Option<Dispatch<H, C>>
  {
    match FirstMatching(bucket, engine, path)
    case None => None
    case Some(k) =>
      Some(Dispatch(bucket[k].handler, ctx, MatcherRouteParams(engine(bucket[k].routePattern, path).value)))
  }

  /** The result of scanning the flat list of registered mappings. */
  function Resolve<H, C>(ms: seq<MappingWithMethods<H>>, engine: Engine, request: Request, ctx: C): Option<Dispatch<H, C>>
  {
    match LinearLookup(ms, engine, request)
    case None => None
    case Some(i) =>
      Some(Dispatch(ms[i].handler, ctx, MatcherRouteParams(engine(ms[i].routePattern, request.uri).value)))
  }

  /** Bucketing is only an optimisation: scanning the bucket of the request's method gives
      the same result as scanning every registered mapping in registration order. */
  lemma BucketedLookupIsLinearScan<H, C>(ms: seq<MappingWithMethods<H>>, engine: Engine, request: Request, ctx: C)
    ensures Select(Bucket(ms, request.requestMethod), engine, request.uri, ctx) == Resolve(ms, engine, request, ctx)
  {
    var m, path := request.requestMethod, request.uri;
    var b, ps := Bucket(ms, m), Positions(ms, m);
    BucketIsSelection(ms, m);
    match LinearLookup(ms, engine, request)
    case None =>
      forall k | 0 <= k < |b| ensures !FullMatch(engine, b[k].routePattern, path) {
        assert b[k] == WithoutMethods(ms[ps[k]]);
        assert !Serves(ms[ps[k]], engine, request);
      }
    case Some(i) =>
      assert i in ps;
      var k :| 0 <= k < |ps| && ps[k] == i;
      assert b[k] == WithoutMethods(ms[i]);
      forall j | 0 <= j < k ensures !FullMatch(engine, b[j].routePattern, path) {
        assert b[j] == WithoutMethods(ms[ps[j]]);
        assert ps[j] < i;
        assert !Serves(ms[ps[j]], engine, request);
      }
      assert FirstMatching(b, engine, path) == Some(k);
  }

  /** Of two mappings that both serve a request, the one registered first shadows the other. */
  lemma EarlierMappingWins<H>(ms: seq<MappingWithMethods<H>>, engine: Engine, request: Request, i: nat, j: nat)
    requires i < j < |ms|
    requires Serves(ms[i], engine, request) && Serves(ms[j], engine, request)
    ensures LinearLookup(ms, engine, request).Some?
    ensures LinearLookup(ms, engine, request).value <= i
  {
  }

  /** A mapping with an empty method set serves no request: inserting one anywhere in the
      registration order, with later mappings still registered after it, changes the outcome
      of no lookup, so dropping it at registration is unobservable. */
  lemma InertMappingIsUnobservable<H, C>(ms: seq<MappingWithMethods<H>>, x: MappingWithMethods<H>, rest: seq<MappingWithMethods<H>>, engine: Engine, request: Request, ctx: C)
    requires x.methods == {}
    ensures Resolve(ms + [x] + rest, engine, request, ctx) == Resolve(ms + rest, engine, request, ctx)
  {
    var with, without := ms + [x] + rest, ms + rest;
    var n := |ms|;
    assert forall i :: 0 <= i < n ==> with[i] == without[i];
    assert forall i :: n <= i < |without| ==> with[i + 1] == without[i];
    assert !Serves(with[n], engine, request);
    match LinearLookup(without, engine, request)
    case None =>
      forall i | 0 <= i < |with| ensures !Serves(with[i], engine, request) {
        if i > n { assert with[i] == without[i - 1]; }
      }
    case Some(i) =>
      var j := if i < n then i else i + 1;
      assert with[j] == without[i];
      forall k | 0 <= k < j ensures !Serves(with[k], engine, request) {
        if k > n { assert with[k] == without[k - 1]; }
      }
      assert LinearLookup(with, engine, request) == Some(j);
  }

  /** The arguments a registered handler receives when the Handler returned for a request
      is called with req. */
  datatype Call<H, C> = Call(handler: H, context: Option<C>, params: Option<MatcherRouteParams>, request: Request)

  /** Calling the returned Handler: the mapping's handler is called with the router's
      context, the parameters of the winning match and the request given to the call; an
      adapter passes on only what its handler's shape takes, and throws if it wraps null. */
  function Invoke<H, C>(d: Dispatch<H, C>, req: Request): (r: Result<Call<H, C>>)
    ensures r.Err? <==> !d.handler.Direct? && d.handler.wrapped.Null?
    ensures r.Err? ==> r.error == NullPointerException
    ensures r.Ok? ==> r.value.handler == (if d.handler.Direct? then d.handler.handler else d.handler.wrapped.value)
    ensures r.Ok? ==> r.value.request == req
    ensures r.Ok? ==> (r.value.context.Some? <==> !d.handler.IgnoringContextAndParams?)
    ensures r.Ok? ==> (r.value.params.Some? <==> d.handler.Direct?)
    ensures r.Ok? && r.value.context.Some? ==> r.value.context.value == d.context
    ensures r.Ok? && r.value.params.Some? ==> r.value.params.value == d.params
  {
    match d.handler
    case Direct(h) => Ok(Call(h, Some(d.context), Some(d.params), req))
    case IgnoringParams(Null) => Err(NullPointerException)
    case IgnoringParams(NonNull(h)) => Ok(Call(h, Some(d.context), None, req))
    case IgnoringContextAndParams(Null) => Err(NullPointerException)
    case IgnoringContextAndParams(NonNull(h)) => Ok(Call(h, None, None, req))
  }
}
