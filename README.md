# OpenAPI path visitor: rule-directed dispatch

This project models the dispatch engine of the OpenAPI visitor of
`qubership-apihub-api-visitor` and proves properties of it. The engine has
three parts:

- **The hook.** `OpenApiWalker.hook` decides, for one crawl step `(key,
  value, state, rules)`, whether the generic crawler descends. It records
  every object value in the walk's identity set `visitedObjects`. Under a
  dispatching rule it builds a callback context, calls the visitor's
  `<base>Start` (or the default `!alreadyVisited`), and schedules
  `<base>End` on the same context as the exit hook.
- **The rule tree.** `openApiRules` maps OpenAPI positions to dispatch
  metadata. These are paths, operations, parameters, request bodies,
  responses, headers, media types and JSON schemas. Schemas cover
  properties, additionalProperties, items and the oneOf/anyOf/allOf
  combiners.
- **The data model.** This covers the rule record, the callback argument,
  the partial visitor with twelve start/end pairs, the options and the
  `'*'` alias.

Files:

- `json_graph.dfy`: the denormalized document as an arena of nodes, where a
  node id is a JavaScript object's identity. It also models object spread
  on optional members (a key present with `undefined` still overrides).
- `openapi_types.dfy`: the data model (`openapi.types.ts`).
- `openapi_rules.dfy`: the rule tree (`openapi.rules.ts`).
  - `CrawlRules` has one constructor per distinct rule shape: `PropertiesMap`
    stands for both `/properties` and `/patternProperties`, `CombinerRules` for
    all three combiners, and `Schema(flavor, site)` for every spread copy of
    the schema rules at one kind of site.
  - The recursive `self` thunk becomes `Schema(flavor, site)`, whose
    children are again schema positions, so no cyclic value is needed.
  - `Lookup` is the crawler's step from a rule to a child's rule: the
    literal segment first, then the wildcard, with value-dependent rules
    evaluated on the child's value.
- `call_trace.dfy`: the effect of a walk, which is the sequence of start and
  end calls, and what it means for those calls to be balanced.
- `openapi_walker.dfy`: the hook, option assembly and the entry points
  (`openapi.walker.ts`).
  - `HookStep` is the hook's decision as a function.
  - `VisitorCrawlState` is the crawl state as a class. Its `Hook` method
    updates the visited set in place and is proved equal to `HookStep`.
  - `WalkNode`/`WalkChildren` and `CrawlNode` model the external crawler:
    depth first, children in document order, exit hook after the children,
    bounded by a depth `fuel`.
- `walker_scenarios.dfy`: walks over hand-built, already denormalized
  documents, proved node by node. Among them is the "shared properties
  object" regression test.

The additional-properties alias is the literal `'*'`, so a real property
named `'*'` gets the same context, and a callback cannot tell the two apart
by `propertyName` (`OpenApiRules.AliasCollidesWithStarProperty`).

## Model

| member | source | states |
|---|---|---|
| OpenApiTypes.MethodBaseInjective | src/apitypes/openapi/openapi.walker.ts:43-44 | The twelve `visitorMethodBase` strings are pairwise distinct, so the `<base>Start`/`<base>End` names of different kinds never collide (both directions) |
| OpenApiTypes.ParseCombinerType | src/apitypes/openapi/openapi.types.ts:54-57 | A combiner type is exactly one of `anyOf`, `oneOf`, `allOf` (both directions), and it reads back from its keyword |
| OpenApiRules.RuleOf | src/apitypes/openapi/openapi.types.ts:21-30 | Every rule object carries `createContext` and `visitorMethodBase` together or neither; a passthrough rule never dispatches; exactly the `properties`/`patternProperties` containers are passthrough |
| OpenApiRules.CreateContext | src/apitypes/openapi/openapi.types.ts:42-46 | Every callback argument carries the value, its declaration paths and the already-visited flag; the kind-specific field is absent exactly for the generic builders, is the crawl key for keyed builders, and is the `'*'` alias for additionalProperties |
| OpenApiRules.Lookup | src/apitypes/openapi/openapi.rules.ts:177-193 | A symbol key has no rule; an array index only ever matches a wildcard; no child ever gets the document root's rule |
| OpenApiRules.RootAndPathsAreStructural | src/apitypes/openapi/openapi.rules.ts:177-193 | The document root and `/paths` neither dispatch nor pass through; the root's only ruled child is `paths` |
| OpenApiRules.PathEntryDispatchesPath | src/apitypes/openapi/openapi.rules.ts:178-191 | Every `/paths/*` entry dispatches `path` with `path` equal to the entry's key |
| OpenApiRules.PathItemChildren | src/apitypes/openapi/openapi.rules.ts:179-188 | A path item's child maps to the operation rule exactly for the eight HTTP method keys, to the parameters rule exactly for `parameters`, and nothing else matches |
| OpenApiRules.OperationRule | src/apitypes/openapi/openapi.rules.ts:169-175 | An operation dispatches `httpMethod` with `method` equal to the key; its only children are `parameters`, `requestBody` and `responses` |
| OpenApiRules.ParameterRule | src/apitypes/openapi/openapi.rules.ts:141-149 | Each parameter dispatches `parameter` with its index under the field named `method`, and recurses only into `/schema`, a schema root |
| OpenApiRules.RequestBodyRule | src/apitypes/openapi/openapi.rules.ts:151-156 | `requestBody` dispatches with the generic fields only and recurses only into `/content` |
| OpenApiRules.ResponseRule | src/apitypes/openapi/openapi.rules.ts:158-167 | Each response dispatches `response` with `responseCode` equal to its key and recurses exactly into `/headers` and `/content` |
| OpenApiRules.MediaTypeAndHeaderRules | src/apitypes/openapi/openapi.rules.ts:122-139 | `mediaType` and `header` equal their keys; their only child is `/schema`, which dispatches `schemaRoot` with the generic fields only |
| OpenApiRules.SchemaSitesShareChildren | src/apitypes/openapi/openapi.rules.ts:19-103 | Every schema position (property, items, combiner item, additional members) has the full children of the schema root, through `self` |
| OpenApiRules.PropertiesContainers | src/apitypes/openapi/openapi.rules.ts:44-66 | `/properties` and `/patternProperties` are passthrough and never dispatch; each entry dispatches `schemaProperty` with `propertyName` equal to its key |
| OpenApiRules.AdditionalMembers | src/apitypes/openapi/openapi.rules.ts:37-58 | A boolean `additionalProperties`/`additionalItems` gets the empty rule; otherwise they dispatch `schemaProperty` with `propertyName` `'*'`, respectively `schemaItems` |
| OpenApiRules.AliasCollidesWithStarProperty | src/apitypes/openapi/openapi.types.ts:102 | An additionalProperties schema and a real property named `'*'` on the same value produce identical contexts |
| OpenApiRules.CombinerDispatch | src/apitypes/openapi/openapi.rules.ts:67-100 | `oneOf`/`anyOf`/`allOf` each lead to the combiner rule, which dispatches `combiner` with `combinerType` equal to the keyword |
| OpenApiRules.CombinerItemDispatch | src/apitypes/openapi/openapi.rules.ts:67-100 | Each element of a combiner dispatches `combinerItem` with `combinerItemIndex` equal to its index, and has the same children as a root schema |
| OpenApiRules.NotAndDefinitionsSkipped | src/apitypes/openapi/openapi.rules.ts:85-90 | `/not` and `/definitions` have no rule under a schema of either flavour, so they are not recursed into |
| OpenApiRules.CombinerTypeIsKeyword | src/apitypes/openapi/openapi.types.ts:54-57 | A combiner rule is only reached under a key that parses as a `CombinerType` |
| OpenApiRules.ItemsOverride | src/apitypes/openapi/openapi.rules.ts:107-118 | In the 3.0 set `/items` dispatches `schemaItems` whether or not the value is an array; the generic set treats an array as a tuple of whole schemas |
| OpenApiRules.LookupStaysInOpenApi30Tree | src/apitypes/openapi/openapi.rules.ts:107-124 | One crawler step from a rule of the 3.0 tree leads to a rule of the 3.0 tree |
| OpenApiRules.ReachableRulesAreOpenApi30 | src/apitypes/openapi/openapi.rules.ts:107-124 | Every rule reached from the 3.0 tree along any path belongs to the 3.0 set: the generic flavour and the tuple form are never used |
| OpenApiRules.SchemaFamilyClosed | src/apitypes/openapi/openapi.rules.ts:19-103 | From a schema position the crawler only reaches schema positions, never the path and operation rules |
| CallTrace.BalancedConcat | src/apitypes/openapi/openapi.walker.ts:41-50 | Two balanced call sequences in a row are balanced |
| CallTrace.BalancedBracket | src/apitypes/openapi/openapi.walker.ts:41-50 | A start, a balanced sequence, then the end on the same kind and context is balanced, whichever functions were the visitor's own |
| CallTrace.VisibleCalls | src/apitypes/openapi/openapi.walker.ts:43-44 | The calls the visitor itself receives are among the calls made and are all its own functions' invocations, and every invocation of its own functions is among them; never a default |
| CallTrace.VisibleCallsOne | src/apitypes/openapi/openapi.walker.ts:43-44 | One call is seen by the visitor exactly when it is an invocation of its own function |
| CallTrace.VisibleCallsAppend | src/apitypes/openapi/openapi.walker.ts:43-44 | The visitor sees the calls of two consecutive stretches of a walk in order, first those of the first stretch, then those of the second; with `VisibleCallsOne` this fixes order and multiplicity |
| OpenApiWalker.WalkPathsNormalizeOptions | src/apitypes/openapi/openapi.walker.ts:54-59 | `resolveRef` is always `true`; `validate` defaults to `true` and `originsFlag` to the default origins key, and both are overridden by any key the caller's options carry |
| OpenApiWalker.InternalOptions | src/apitypes/openapi/openapi.walker.ts:65-68 | The origins key is the default one unless the caller's options carry one |
| OpenApiWalker.WalkPathsKeepsOriginsFlag | src/apitypes/openapi/openapi.walker.ts:53-62 | The walk started by `walkPaths` keeps the origins key `walkPaths` chose, the default one when no options are given |
| OpenApiWalker.ResolveStart | src/apitypes/openapi/openapi.walker.ts:43 | The start function is the visitor's own when present, otherwise it answers `!alreadyVisited` on every context |
| OpenApiWalker.HookStep | src/apitypes/openapi/openapi.walker.ts:23-51 | Symbol keys and non-objects stop without a call or record. An object is recorded and the set only grows. With no rule the hook stops silently; passthrough descends without a call; structural descends iff not yet visited. Dispatch makes one start call on the built context (paths default to `[]`), `done` is the negated start answer, and the exit hook ends on the same context |
| OpenApiWalker.DefaultStartStopsOnRevisit | src/apitypes/openapi/openapi.walker.ts:30-45 | With the default start a value is entered on its first visit only; the second and third visits report `alreadyVisited` and leave the set unchanged |
| OpenApiWalker.WalkNodeContinues | src/apitypes/openapi/openapi.walker.ts:30-50 | Every node walk only grows the visited set, records its own object value, keeps earlier calls, and adds a balanced start/end bracketing whether or not it descends |
| OpenApiWalker.WalkChildrenContinues | src/apitypes/openapi/openapi.walker.ts:30-50 | The same for the walk of a node's children in order |
| OpenApiWalker.RevisitIsNotEntered | src/apitypes/openapi/openapi.walker.ts:38-45 | A visited value under a structural rule, or under a dispatching rule with the default start, is not descended into; at most its own start and end are called, both flagged already visited |
| OpenApiWalker.PassthroughReentersVisited | src/apitypes/openapi/openapi.walker.ts:35-37 | A passthrough container's children are walked even when the container was visited before, with no call of its own |
| OpenApiWalker.VisitorCrawlState.constructor | src/apitypes/openapi/openapi.walker.ts:80-85 | A fresh crawl state holds the visitor, the internal options and the resolver, with nothing visited and nothing called |
| OpenApiWalker.VisitorCrawlState.Hook | src/apitypes/openapi/openapi.walker.ts:23-51 | The in-place hook answers as `HookStep`, leaves the visited set as `HookStep` says, and appends the start call it made |
| OpenApiWalker.VisitorCrawlState.RunExitHook | src/apitypes/openapi/openapi.walker.ts:49 | Running an exit hook calls the resolved end function on the start's context and changes nothing else |
| OpenApiWalker.VisitorCrawlState.CrawlNode | src/apitypes/openapi/openapi.walker.ts:74-88 | The crawl of one node leaves the state that `WalkNode` computes |
| OpenApiWalker.WalkOnNormalizedInternal | src/apitypes/openapi/openapi.walker.ts:72-89 | A walk starts from an empty visited set at the root under `openApiRules`, and the calls it makes are balanced |
| OpenApiWalker.WalkPathsOnNormalizedSource | src/apitypes/openapi/openapi.walker.ts:64-70 | The same walk after defaulting the origins key; its calls are balanced |
| OpenApiWalker.WalkPaths | src/apitypes/openapi/openapi.walker.ts:53-62 | The walk runs over the document the pipeline produces from the assembled options, from an empty visited set; its calls are balanced |
| WalkerScenarios.PrimitiveIsSkipped | src/apitypes/openapi/openapi.walker.ts:27-29 | A primitive child changes neither the visited set nor the calls |
| WalkerScenarios.UnruledIsRecordedOnly | src/apitypes/openapi/openapi.walker.ts:30-34 | An object with no rule is recorded as visited but neither entered nor dispatched |
| WalkerScenarios.EnteredDispatch | src/apitypes/openapi/openapi.walker.ts:41-50 | A dispatching node whose start goes deeper walks as: its start, its children, its end on the same context |
| WalkerScenarios.EnteredStructural | src/apitypes/openapi/openapi.walker.ts:38-40 | A structural node not seen before is recorded and its children are walked, with no call of its own |
| WalkerScenarios.PrimitivesSkipped | src/apitypes/openapi/openapi.walker.ts:27-29 | Children that are all primitives change nothing |
| WalkerScenarios.DispatchedLeaf | src/apitypes/openapi/openapi.walker.ts:41-50 | A dispatching node with only primitive children makes exactly its start and its end call |
| WalkerScenarios.SharedProperties | src/apitypes/openapi/openapi.walker.ts:35-37 | The shared `properties` object is entered again on every visit and hands `shouldVisitTwice` to `schemaPropertyStart` each time |
| WalkerScenarios.SharedProperty | test/bugs.test.ts:101-104 | The property schema is started with `propertyName` `shouldVisitTwice` on every visit, visited or not |
| WalkerScenarios.SharedCategory | src/apitypes/openapi/openapi.walker.ts:41-50 | The shared `Category` items schema is entered on every visit because its start goes deeper, so its property is started once per visit |
| WalkerScenarios.PropertyNamesOfAppended | test/bugs.test.ts:101-104 | The names the visitor's own `schemaPropertyStart` received grow by a call's property name exactly when that call is a property start the visitor supplied |
| WalkerScenarios.SharedResponses | test/bugs.test.ts:49-111 | The `201` response is walked from the state the `200` response left, in which `Category`, its `properties` object and the property are already visited; each response adds one `shouldVisitTwice` to the names received, two in all |
| WalkerScenarios.SharedFirstResponse | test/bugs.test.ts:56-67 | Walking the `200` response visits `Category`, its `properties` object and the property, leaves the `201` response's own nodes 6, 8 and 10 (response, content map, media type) unvisited, and adds one `shouldVisitTwice` |
| WalkerScenarios.SharedPropertiesVisitedTwice | test/bugs.test.ts:49-111 | Walking the whole "shared properties object" document from an empty visited set, the property names in the calls the visitor sees (`VisibleCalls`), in order, are exactly `['shouldVisitTwice', 'shouldVisitTwice']` |

## Left out

- `normalize`/`denormalize` of `qubership-apihub-api-unifier` are foreign code. They resolve `$ref`s, merge `allOf` and inject titles. `WalkPaths` takes them as a function parameter from the assembled options to the document graph. The test counts that depend on them are not proved; only walks over hand-built denormalized graphs are.
- The generic crawler `syncCrawl` is foreign code. `WalkNode`/`CrawlNode` are a model of it: depth first, children in document order, rule lookup by literal segment then wildcard, exit hook after the children. Its real enumeration order and scheduling are assumed, not verified.
- The crawler offers the document root under an assumed key (`RootKey`). The root's rule has no context builder, so the key is never observed.
- Unbounded recursion: a visitor whose start always goes deeper on a cyclic graph never ends in the source. The model bounds the walk depth by `fuel`, and a node at depth zero is hooked but not descended into.
- `createSelfMetaCrawlHook` and the origins metadata are left out. The resolver is a parameter from key to an optional chain, and chains are opaque. Only the `[]` default is modelled.
- Symbol-valued metadata keys are modelled only as "symbol keys are skipped". The origins symbol is one constant.
- The `OpenAPIV3` payload types are left out. Callback arguments carry node ids, not typed objects.
- Exceptions thrown by visitor callbacks are left out; the source only propagates them.
- Start and end callbacks are pure functions of their argument. Their side effects are recorded as the trace of calls made.
- `WalkContext` is declared but not used by the core, so it is not modelled.
- The fixture `test/resources/test-id-patch.json` is not part of this model.
