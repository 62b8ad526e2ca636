# regex-router in Dafny

A model of the dispatch engine of `dev.mccue.regexrouter.RegexRouter`, a request router that
keeps an ordered list of (HTTP method set, regular expression, handler) mappings and resolves a
request to the first mapping that lists the request's method and whose pattern matches the
whole request URI. The router exposes the winning match's capture groups as positional and
named route parameters.

The model has six modules:

- `Lang` (`lang.dfy`): Java-level values. `Option` stands for `Optional`. `Nullable` is a reference that may be null. `Result` is a call that returns or throws one of the unchecked exceptions the code can raise.
- `Http` (`http.dfy`): the `HttpMethod` enumeration, `values()` as `Values`, and the request (method and URI).
- `Regex` (`regex.dfy`): a compiled `Pattern`, the state of a `Matcher` after a successful `matches()`, and `Matcher.group(int)` / `Matcher.group(String)`. Matching and percent-decoding are foreign calls. They are received as function-typed parameters, so nothing in the model depends on how they work:
  - `Engine`: a pattern and a path give no match or a match;
  - `Decoder`: a string gives a decoded string, or nothing when `URLDecoder.decode` would throw.
- `RouteParams` (`route_params.dfy`): `MatcherRouteParams.positionalParameter` and `namedParameter`.
- `Routes` (`routes.dfy`): mappings and the handler adapters. It defines the per-method bucket a list of mappings replays into, the scan of one bucket (`FirstMatching`), and the scan of the flat registration list (`LinearLookup`). It proves that the two scans agree.
- `RegexRouter` (`regex_router.dfy`): the classes.
  - `Builder` has a `seq` of mappings that the `addMapping` overloads reassign.
  - `Router` has its buckets in a `map` that the constructor fills with nested loops.
  - `HandlerForRequest` is a loop with an early return, proved against `Select` and against `Resolve`.

Behaviour of the code that the model keeps:

- Methods are enumeration constants compared by identity. Nothing lower-cases or case-folds them.
- A null argument to the canonical `addMapping` throws `NullPointerException`.
- Four overloads take a handler of a simpler shape. The two set overloads wrap it in a lambda before the null check (lines 162 and 180). The two single-method overloads pass it on to them. A null handler passed to any of the four is therefore accepted. It fails only when the returned handler is invoked (`Invoke`).
- `namedParameter` also swallows a malformed percent escape, because its `catch` of `IllegalArgumentException` covers the decoder call. `positionalParameter` has no such `catch`.
- `positionalParameter` never returns a capture: see Findings.

## Model

| member | source | states |
|---|---|---|
| `Http.ValuesEnumerateAll` | src/main/java/dev/mccue/regexrouter/RegexRouter.java:45-47 | `values()` lists every method exactly once, so the constructor's first loop creates a bucket for every method |
| `RouteParams.PositionalParameter` | src/main/java/dev/mccue/regexrouter/RegexRouter.java:79-86 | as written: the result is empty exactly when `pos < 0` or `pos <= groupCount()`; otherwise the call throws `IndexOutOfBoundsException`; no position ever yields a value |
| `RouteParams.PositionalParameterIntended` | src/main/java/dev/mccue/regexrouter/RouteParams.java:9-14 | corrected guard: a value is returned exactly when `0 <= pos < groupCount()`, group `pos + 1` took part in the match and its text decodes; the value is the decoded capture; out-of-range positions give empty; it throws exactly when an in-range, participating group fails to decode |
| `RouteParams.NamedParameter` | src/main/java/dev/mccue/regexrouter/RegexRouter.java:88-105 | a value is returned exactly when the name is a group of the pattern, that group took part in the match and its text decodes; the value is the decoded capture; an unknown name, a non-participating group and a malformed escape all give empty |
| `RouteParams.PositionalGuardHidesCaptures` | src/main/java/dev/mccue/regexrouter/RegexRouter.java:80-81 | for every existing, participating, decodable group the code as written returns empty while the corrected accessor returns the decoded capture |
| `RouteParams.PositionalGuardThrowsPastEnd` | src/main/java/dev/mccue/regexrouter/RegexRouter.java:80-84 | for a position greater than `groupCount()` the code as written throws `IndexOutOfBoundsException` while the corrected accessor returns empty |
| `RouteParams.PositionalGuardExample` | src/main/java/dev/mccue/regexrouter/RegexRouter.java:80-84 | on `/items/42` with one group capturing `42`: position 0 is empty as written and `42` corrected; position 5 throws as written and is empty corrected |
| `Routes.Positions` | src/main/java/dev/mccue/regexrouter/RegexRouter.java:48-52 | the positions of the mappings that list a method are exactly those mappings' indices, strictly increasing |
| `Routes.BucketIsSelection` | src/main/java/dev/mccue/regexrouter/RegexRouter.java:48-52 | the bucket of a method holds exactly the registered mappings that list it, each once, in registration order, without their method sets |
| `Routes.FirstMatching` | src/main/java/dev/mccue/regexrouter/RegexRouter.java:111-122 | the scan of a bucket yields the first mapping whose pattern matches the whole path, and nothing exactly when no mapping of the bucket matches |
| `Routes.LinearLookup` | src/main/java/dev/mccue/regexrouter/RegexRouter.java:19-29 | the reference linear scan yields the first registered mapping that lists the request's method and whose pattern matches the whole URI, and nothing exactly when there is none |
| `Routes.BucketedLookupIsLinearScan` | src/main/java/dev/mccue/regexrouter/RegexRouter.java:41-53 | bucketing is only an optimisation: scanning the bucket of the request's method gives the same handler and match as the flat scan over all registered mappings |
| `Routes.EarlierMappingWins` | src/main/java/dev/mccue/regexrouter/RegexRouter.java:29 | when two mappings both serve a request, the lookup selects the earlier one or a mapping before it, never the later one |
| `Routes.InertMappingIsUnobservable` | src/main/java/dev/mccue/regexrouter/RegexRouter.java:202-208 | a mapping with an empty method set serves no request: inserting it anywhere in the registration order, with later mappings still registered after it, changes no lookup, so dropping it is unobservable |
| `Routes.Invoke` | src/main/java/dev/mccue/regexrouter/RegexRouter.java:115-119 | the returned handler calls the mapping's handler (the one the adapter wraps, for a simpler shape) with the request it is given; the router's context reaches it unless the handler takes only the request; the winning match's parameters reach it only if it takes them; an adapter over a null handler throws `NullPointerException` |
| `RegexRouter.Builder.constructor` | src/main/java/dev/mccue/regexrouter/RegexRouter.java:143-146 | a new builder has no mappings and the given context |
| `RegexRouter.Builder.AddMapping` | src/main/java/dev/mccue/regexrouter/RegexRouter.java:193-210 | a null method set, pattern or handler throws `NullPointerException` and changes nothing; a non-empty set appends exactly one mapping at the end with that set, pattern and handler; an empty set leaves the mappings unchanged |
| `RegexRouter.Builder.AddMappingForMethod` | src/main/java/dev/mccue/regexrouter/RegexRouter.java:184-191 | behaves as `AddMapping` with the set `{method}`: a null method, pattern or handler throws and changes nothing, otherwise exactly one mapping is appended |
| `RegexRouter.Builder.AddContextMapping` | src/main/java/dev/mccue/regexrouter/RegexRouter.java:175-182 | as `AddMapping` with the handler wrapped in the adapter that drops the route parameters; a null handler is not rejected |
| `RegexRouter.Builder.AddContextMappingForMethod` | src/main/java/dev/mccue/regexrouter/RegexRouter.java:166-173 | as `AddContextMapping` with the set `{method}`; a null method throws and changes nothing |
| `RegexRouter.Builder.AddRequestMapping` | src/main/java/dev/mccue/regexrouter/RegexRouter.java:157-164 | as `AddMapping` with the handler wrapped in the adapter that drops the context and the route parameters; a null handler is not rejected |
| `RegexRouter.Builder.AddRequestMappingForMethod` | src/main/java/dev/mccue/regexrouter/RegexRouter.java:148-155 | as `AddRequestMapping` with the set `{method}`; a null method throws and changes nothing |
| `RegexRouter.Builder.Build` | src/main/java/dev/mccue/regexrouter/RegexRouter.java:212-214 | returns a new, valid router over exactly the mappings registered so far and the builder's context |
| `RegexRouter.Router.constructor` | src/main/java/dev/mccue/regexrouter/RegexRouter.java:41-53 | every method has a bucket, possibly empty, so the lookup by request method never misses; each bucket is the replay of the builder's mappings (`Bucket`); the context is the builder's |
| `RegexRouter.Router.HandlerForRequest` | src/main/java/dev/mccue/regexrouter/RegexRouter.java:108-123 | returns nothing exactly when no mapping in the request method's bucket fully matches the URI; otherwise returns the first such mapping's handler, bound to the router's context and that mapping's match; equals the flat linear scan over the registered mappings |

## Left out

- Regular-expression matching (`Pattern.matcher(...).matches()`) and `URLDecoder.decode` are not modelled. They are parameters (`Engine`, `Decoder`), and every result holds for any choice of them.
- The handler's own work, the response it produces and the `IOException` it may throw are not modelled. `Invoke` records only which arguments reach the registered handler.
- The `Handler` returned by `handlerForRequest` is a lambda in the code. The model returns the value it closes over: the mapping's handler, the context and the match.
- The server library's `HttpMethod` is a datatype with its GET, POST, HEAD, PUT, OPTIONS, DELETE, TRACE, CONNECT, MOVE, PROXY and PRI constants. No proof depends on which constants exist.
- A null request, a null request method and a null name passed to `namedParameter` are not modelled. All three would throw `NullPointerException`.
- The constructor's inner loop visits a mapping's methods in any order, not in the enumeration's ordinal order. Each bucket receives the mapping exactly once either way, so the buckets are the same.
- `builder()` without a context is `builder(null)`. The model has only the constructor with a context, whose type may be instantiated with a nullable type.
- The builder returns itself for chaining. The model's methods return only whether they threw.
- The method reference `handler::handle` at line 206 is taken as the handler itself.
- Concurrency and thread-safety are out of scope. The code synchronises nothing.
- The `RequestRouter` and `RouteParams` interfaces (both packages) and `module-info.java` declare types only. Their contracts are those of the members above.

## Findings

| source | as written | input that shows it | evidently intended | confidence | as-written member | corrected member |
|---|---|---|---|---|---|---|
| src/main/java/dev/mccue/regexrouter/RegexRouter.java:80 | `matcher.groupCount() > pos - 1 \|\| pos < 0` returns empty for every `pos` in `0..groupCount()`. For larger `pos` it calls `group(pos + 1)`, which is past the last group and throws `IndexOutOfBoundsException`. | A pattern with one group matching `/items/42`: `positionalParameter(0)` is empty instead of `42`, and `positionalParameter(5)` throws instead of being empty. | Return the decoded group `pos + 1` for `0 <= pos < groupCount()` and empty otherwise (`pos >= groupCount() \|\| pos < 0`), as `RouteParams.positionalParameter` documents ("The parameter, if there is one"). A group that took part in no match is also treated as empty, as `namedParameter` does. | high; not executed | `RouteParams.PositionalParameter`, `RouteParams.PositionalGuardExample` | `RouteParams.PositionalParameterIntended`, `RouteParams.PositionalGuardHidesCaptures` |
