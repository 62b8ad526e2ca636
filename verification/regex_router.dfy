/** The router: a builder that accumulates mappings in order, and the router it builds,
    which replays them into one bucket per HTTP method and dispatches by scanning the
    bucket of the request's method. */
module RegexRouter {
  import opened Lang
  import opened Http
  import opened Regex
  import opened RouteParams
  import opened Routes

  /** RegexRouter.Builder: an ordered, growing list of mappings and a fixed context. */
  class Builder<H, C> {
    var mappings: seq<MappingWithMethods<H>>
    const context: C

    /** builder(context); builder() is the same with a null context. */
    constructor (context: C)
      ensures this.context == context && mappings == []
    {
      this.context := context;
      mappings := [];
    }

    /** The canonical addMapping: rejects a null argument, appends a copy of a non-empty
        method set with its pattern and handler, and drops a mapping with no methods. */
    method AddMapping(methods: Nullable<set<HttpMethod>>, routePattern: Nullable<Pattern>, handler: Nullable<RouteHandler<H>>)
      returns (thrown: Option<Exception>)
      modifies this`mappings
      ensures thrown.Some? <==> methods.Null? || routePattern.Null? || handler.Null?
      ensures thrown.Some? ==> thrown.value == NullPointerException && mappings == old(mappings)
      ensures thrown.None? && methods.value == {} ==> mappings == old(mappings)
      ensures thrown.None? && methods.value != {} ==>
                mappings == old(mappings) + [MappingWithMethods(methods.value, routePattern.value, handler.value)]
    {
      if methods.Null? || routePattern.Null? || handler.Null? {
        return Some(NullPointerException);
      }
      if methods.value != {} {
        mappings := mappings + [MappingWithMethods(methods.value, routePattern.value, handler.value)];
      }
      return None;
    }

    /** addMapping(method, pattern, handler taking context and parameters): the canonical
        overload with the set {method}; a null method is rejected by the set's creation. */
    method AddMappingForMethod(httpMethod: Nullable<HttpMethod>, routePattern: Nullable<Pattern>, handler: Nullable<RouteHandler<H>>)
      returns (thrown: Option<Exception>)
      modifies this`mappings
      ensures thrown.Some? <==> httpMethod.Null? || routePattern.Null? || handler.Null?
      ensures thrown.Some? ==> thrown.value == NullPointerException && mappings == old(mappings)
      ensures thrown.None? ==>
                mappings == old(mappings) + [MappingWithMethods({httpMethod.value}, routePattern.value, handler.value)]
    {
      if httpMethod.Null? {
        return Some(NullPointerException);
      }
      thrown := AddMapping(NonNull({httpMethod.value}), routePattern, handler);
    }

    /** addMapping(methods, pattern, handler taking context and request): the handler is
        wrapped in an adapter that drops the route parameters; the adapter is not null,
        so a null handler is not rejected here. */
    method AddContextMapping(methods: Nullable<set<HttpMethod>>, routePattern: Nullable<Pattern>, handler: Nullable<H>)
      returns (thrown: Option<Exception>)
      modifies this`mappings
      ensures thrown.Some? <==> methods.Null? || routePattern.Null?
      ensures thrown.Some? ==> thrown.value == NullPointerException && mappings == old(mappings)
      ensures thrown.None? && methods.value == {} ==> mappings == old(mappings)
      ensures thrown.None? && methods.value != {} ==>
                mappings == old(mappings) + [MappingWithMethods(methods.value, routePattern.value, IgnoringParams(handler))]
    {
      thrown := AddMapping(methods, routePattern, NonNull(IgnoringParams(handler)));
    }

    /** addMapping(method, pattern, handler taking context and request). */
    method AddContextMappingForMethod(httpMethod: Nullable<HttpMethod>, routePattern: Nullable<Pattern>, handler: Nullable<H>)
      returns (thrown: Option<Exception>)
      modifies this`mappings
      ensures thrown.Some? <==> httpMethod.Null? || routePattern.Null?
      ensures thrown.Some? ==> thrown.value == NullPointerException && mappings == old(mappings)
      ensures thrown.None? ==>
                mappings == old(mappings) + [MappingWithMethods({httpMethod.value}, routePattern.value, IgnoringParams(handler))]
    {
      if httpMethod.Null? {
        return Some(NullPointerException);
      }
      thrown := AddContextMapping(NonNull({httpMethod.value}), routePattern, handler);
    }

    /** addMapping(methods, pattern, handler taking only the request): the handler is
        wrapped in an adapter that drops the context and the route parameters. */
    method AddRequestMapping(methods: Nullable<set<HttpMethod>>, routePattern: Nullable<Pattern>, handler: Nullable<H>)
      returns (thrown: Option<Exception>)
      modifies this`mappings
      ensures thrown.Some? <==> methods.Null? || routePattern.Null?
      ensures thrown.Some? ==> thrown.value == NullPointerException && mappings == old(mappings)
      ensures thrown.None? && methods.value == {} ==> mappings == old(mappings)
      ensures thrown.None? && methods.value != {} ==>
                mappings == old(mappings) + [MappingWithMethods(methods.value, routePattern.value, IgnoringContextAndParams(handler))]
    {
      thrown := AddMapping(methods, routePattern, NonNull(IgnoringContextAndParams(handler)));
    }

    /** addMapping(method, pattern, handler taking only the request). */
    method AddRequestMappingForMethod(httpMethod: Nullable<HttpMethod>, routePattern: Nullable<Pattern>, handler: Nullable<H>)
      returns (thrown: Option<Exception>)
      modifies this`mappings
      ensures thrown.Some? <==> httpMethod.Null? || routePattern.Null?
      ensures thrown.Some? ==> thrown.value == NullPointerException && mappings == old(mappings)
      ensures thrown.None? ==>
                mappings == old(mappings) + [MappingWithMethods({httpMethod.value}, routePattern.value, IgnoringContextAndParams(handler))]
    {
      if httpMethod.Null? {
        return Some(NullPointerException);
      }
      thrown := AddRequestMapping(NonNull({httpMethod.value}), routePattern, handler);
    }

    /** build(): a router over the mappings registered so far. */
    method Build() returns (router: Router<H, C>)
      ensures fresh(router)
      ensures router.Valid() && router.mappings == mappings && router.ctx == context
    {
      router := new Router(this);
    }
  }

  /** RegexRouter: the context and one bucket per HTTP method, both fixed at construction. */
  class Router<H, C> {
    const ctx: C
    const lookups: map<HttpMethod, seq<Mapping<H>>>
    /** The builder's mappings the buckets were replayed from. */
    ghost const mappings: seq<MappingWithMethods<H>>

    /** Every method has a bucket, and it is the replay of the builder's mappings. */
    ghost predicate Valid()
    {
      forall m :: m in lookups && lookups[m] == Bucket(mappings, m)
    }

    /** The private constructor: one empty bucket per method, then every mapping, in
        registration order, appended to the bucket of each method it lists. */
    constructor (builder: Builder<H, C>)
      ensures ctx == builder.context && mappings == builder.mappings
      ensures forall m :: m in lookups
      ensures Valid()
    {
      var ms := builder.mappings;
      var table: map<HttpMethod, seq<Mapping<H>>> := map[];
      for j := 0 to |Values|
        invariant forall m :: m in table <==> m in Values[..j]
        invariant forall m :: m in table ==> table[m] == []
      {
        table := table[Values[j] := []];
      }
      forall m ensures m in table && table[m] == Bucket(ms[..0], m) {
        ValuesEnumerateAll(m);
        assert Values[..|Values|] == Values;
      }
      for i := 0 to |ms|
        invariant forall m :: m in table && table[m] == Bucket(ms[..i], m)
      {
        var mapping := ms[i];
        assert ms[..i + 1][..i] == ms[..i];
        var rest := mapping.methods;
        while rest != {}
          invariant rest <= mapping.methods
          invariant forall m :: m in table
          invariant forall m :: m in mapping.methods - rest ==> table[m] == Bucket(ms[..i + 1], m)
          invariant forall m :: m !in mapping.methods - rest ==> table[m] == Bucket(ms[..i], m)
          decreases rest
        {
          var httpMethod :| httpMethod in rest;
          table := table[httpMethod := table[httpMethod] + [Mapping(mapping.routePattern, mapping.handler)]];
          rest := rest - {httpMethod};
        }
      }
      assert ms[..|ms|] == ms;
      ctx := builder.context;
      lookups := table;
      mappings := ms;
    }

    /** handlerForRequest: scans the bucket of the request's method in order and returns
        the first mapping whose pattern matches the whole URI, with its match; nothing when
        no mapping of the bucket matches. */
    method HandlerForRequest(request: Request, engine: Engine) returns (r: Option<Dispatch<H, C>>)
      requires Valid()
      ensures r.None? <==>
                forall k :: 0 <= k < |lookups[request.requestMethod]| ==>
                  !FullMatch(engine, lookups[request.requestMethod][k].routePattern, request.uri)
      ensures r == Select(lookups[request.requestMethod], engine, request.uri, ctx)
      ensures r == Resolve(mappings, engine, request, ctx)
    {
      var lookup := lookups[request.requestMethod];
      for i := 0 to |lookup|
        invariant forall k :: 0 <= k < i ==> !FullMatch(engine, lookup[k].routePattern, request.uri)
      {
        var mapping := lookup[i];
        var matcher := engine(mapping.routePattern, request.uri);
        if matcher.Some? {
          assert FirstMatching(lookup, engine, request.uri) == Some(i);
          BucketedLookupIsLinearScan(mappings, engine, request, ctx);
          return Some(Dispatch(mapping.handler, ctx, MatcherRouteParams(matcher.value)));
        }
      }
      BucketedLookupIsLinearScan(mappings, engine, request, ctx);
      return None;
    }
  }
}
