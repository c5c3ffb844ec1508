/** `OpenApiWalker`: the per-node hook that turns a generic crawl step into
    typed start/end calls, the option assembly of the two entry points, and
    the walk session with its fresh visited set.

    The generic crawler is a separate library; `WalkNode`/`WalkChildren` and
    `VisitorCrawlState.CrawlNode` are a model of it (depth first, children in
    the document's order, the exit hook after the children), bounded by a
    `fuel` depth so that every walk ends. */
module OpenApiWalker {
  import opened Wrappers
  import opened JsonGraph
  import opened OpenApiTypes
  import opened OpenApiRules
  import opened CallTrace

  // ---------------------------------------------------------------------
  // Option assembly
  // ---------------------------------------------------------------------

  function NoOptions(): NormalizeOptions {
    NormalizeOptions(Missing, Missing, Missing)
  }

  /** `walkPaths`: `{ originsFlag: DEFAULT, validate: true, ...options, resolveRef: true }`.
      `$ref` resolution is always requested; the other two take the
      caller's member whenever the caller's object has that key. */
  function WalkPathsNormalizeOptions(options: Option<NormalizeOptions>): (r: NormalizeOptions)
    ensures r.resolveRef == Present(true)
    ensures var o := options.GetOr(NoOptions());
            r.validate == (if o.validate.Missing? then Present(true) else o.validate)
    ensures var o := options.GetOr(NoOptions());
            r.originsFlag == (if o.originsFlag.Missing? then Present(DefaultOptionOriginsMetaKey) else o.originsFlag)
    ensures !r.validate.Missing? && !r.originsFlag.Missing?
  {
    var o := options.GetOr(NoOptions());
    NormalizeOptions(
      Spread(Present(DefaultOptionOriginsMetaKey), o.originsFlag),
      Spread(Present(true), o.validate),
      Present(true))
  }

  /** `walkPathsOnNormalizedSource`: `{ originsFlag: DEFAULT, ...options }`. */
  function InternalOptions(options: Option<VisitorOptions>): (r: InternalVisitorOptions)
    ensures options.None? || options.value.originsFlag.Missing? ==>
              r.originsFlag == Present(DefaultOptionOriginsMetaKey)
    ensures options.Some? && !options.value.originsFlag.Missing? ==>
              r.originsFlag == options.value.originsFlag
  {
    match options
    case None => InternalVisitorOptions(Present(DefaultOptionOriginsMetaKey))
    case Some(o) => InternalVisitorOptions(Spread(Present(DefaultOptionOriginsMetaKey), o.originsFlag))
  }

  /** `walkPaths` hands its assembled options on: the walk keeps the
      origins key chosen by `walkPaths`, and it is the default one unless the
      caller's options name a key. */
  lemma WalkPathsKeepsOriginsFlag(options: Option<NormalizeOptions>)
    ensures var n := WalkPathsNormalizeOptions(options);
            InternalOptions(Some(VisitorOptions(n.originsFlag))).originsFlag == n.originsFlag
    ensures options.None? ==>
              InternalOptions(Some(VisitorOptions(WalkPathsNormalizeOptions(options).originsFlag))).originsFlag
              == Present(DefaultOptionOriginsMetaKey)
  {
  }

  // ---------------------------------------------------------------------
  // The hook
  // ---------------------------------------------------------------------

  /** The `exitHook` closure `() => endFn(ctx)`: the end function is resolved
      when the hook runs; `supplied` says whether it is the visitor's own. */
  datatype ExitHook = CallEnd(kind: DispatchKind, ctx: VisitorCallbackArgument, supplied: bool)

  function ExitEvent(e: ExitHook): Event {
    End(e.kind, e.ctx, e.supplied)
  }

  /** The hook's answer to the crawler: `done` stops the descent, `value`
      is what to descend into, `exitHook` runs after the subtree. A missing
      `done` reads as false. */
  datatype CrawlHookResponse = CrawlHookResponse(done: bool, value: Option<Value>, exitHook: Option<ExitHook>)

  function Stop(): CrawlHookResponse {
    CrawlHookResponse(true, None, None)
  }

  /** What one hook call does: its response, the visited set afterwards and
      the start function invocation it made (none or one). */
  datatype HookOutcome = HookOutcome(response: CrawlHookResponse, visited: set<NodeId>, started: seq<Event>)

  /** `visitor[base + 'Start'] ?? (() => !alreadyVisited)`. */
  function ResolveStart(visitor: OpenApiPathVisitor, kind: DispatchKind, alreadyVisited: bool): (f: StartFn)
    ensures visitor.StartOf(kind).Some? ==> f == visitor.StartOf(kind).value
    ensures visitor.StartOf(kind).None? ==> forall c :: f(c) == !alreadyVisited
  {
    visitor.StartOf(kind).GetOr(_ => !alreadyVisited)
  }

  /** The decision the hook takes for one crawl step. `origins` is what the
      state's origins resolver yields for the key. */
  function HookStep(visitor: OpenApiPathVisitor, visited: set<NodeId>, key: Key, value: Value,
                    rules: Option<VisitorCrawlRule>, origins: Option<seq<ChainItem>>): (out: HookOutcome)
    // symbol keys and non-objects: stop, call nothing, record nothing
    ensures key.SymbolKey? || !IsObject(value) ==> out == HookOutcome(Stop(), visited, [])
    // objects: recorded by identity; the set only grows
    ensures visited <= out.visited
    ensures !key.SymbolKey? && IsObject(value) ==> out.visited == visited + {value.id}
    // no rule: stop without a call, though the value was recorded
    ensures rules.None? ==> out.response == Stop() && out.started == []
    // passthrough: descend even into a visited value, call nothing
    ensures !key.SymbolKey? && IsObject(value) && rules.Some? && rules.value.passthrough ==>
              !out.response.done && out.response.exitHook.None? && out.started == []
    // structural: descend exactly when the value was not visited before
    ensures !key.SymbolKey? && IsObject(value) && rules.Some? && !rules.value.passthrough &&
            !rules.value.Dispatches() ==>
              out.response.done == (value.id in visited) && out.response.exitHook.None? && out.started == []
    // dispatch: one start call on the built context, done iff start said no,
    // and an exit hook that ends with the very same context
    ensures !key.SymbolKey? && IsObject(value) && rules.Some? && !rules.value.passthrough &&
            rules.value.Dispatches() ==>
              var kind := rules.value.visitorMethodBase.value;
              var ctx := CreateContext(rules.value.createContext.value, key, value.id,
                                       origins.GetOr([]), value.id in visited);
              out.started == [Start(kind, ctx, visitor.StartOf(kind).Some?)] &&
              out.response.exitHook == Some(CallEnd(kind, ctx, visitor.EndOf(kind).Some?)) &&
              out.response.done == !ResolveStart(visitor, kind, value.id in visited)(ctx)
    // a start call is made exactly when an end is scheduled, on the same kind and context
    ensures out.response.exitHook.None? ==> out.started == []
    ensures out.response.exitHook.Some? ==>
              out.started == [Start(out.response.exitHook.value.kind, out.response.exitHook.value.ctx,
                                    visitor.StartOf(out.response.exitHook.value.kind).Some?)]
  {
    if key.SymbolKey? || !IsObject(value) then HookOutcome(Stop(), visited, [])
    else
      var alreadyVisited := value.id in visited;
      var visited' := visited + {value.id};
      if rules.None? then HookOutcome(Stop(), visited', [])
      else
        var rule := rules.value;
        if rule.passthrough then HookOutcome(CrawlHookResponse(false, Some(value), None), visited', [])
        else if rule.createContext.None? || rule.visitorMethodBase.None? then
          HookOutcome(CrawlHookResponse(alreadyVisited, Some(value), None), visited', [])
        else
          var kind := rule.visitorMethodBase.value;
          var ctx := CreateContext(rule.createContext.value, key, value.id, origins.GetOr([]), alreadyVisited);
          var goDeeper := ResolveStart(visitor, kind, alreadyVisited)(ctx);
          HookOutcome(CrawlHookResponse(!goDeeper, Some(value), Some(CallEnd(kind, ctx, visitor.EndOf(kind).Some?))),
                      visited', [Start(kind, ctx, visitor.StartOf(kind).Some?)])
  }

  /** With the default start, a value is entered on its first visit only;
      the second and every later visit report `alreadyVisited`. */
  lemma DefaultStartStopsOnRevisit(visited: set<NodeId>, key: Key, id: NodeId, rules: VisitorCrawlRule,
                                   origins: Option<seq<ChainItem>>, key2: Key, key3: Key)
    requires !key.SymbolKey? && !key2.SymbolKey? && !key3.SymbolKey? && !rules.passthrough
    requires id !in visited
    ensures var o1 := HookStep(EmptyVisitor, visited, key, Ref(id), Some(rules), origins);
            var o2 := HookStep(EmptyVisitor, o1.visited, key2, Ref(id), Some(rules), origins);
            var o3 := HookStep(EmptyVisitor, o2.visited, key3, Ref(id), Some(rules), origins);
            !o1.response.done && o2.response.done && o3.response.done &&
            o2.visited == o1.visited && o3.visited == o1.visited &&
            (rules.Dispatches() ==>
               !o1.started[0].ctx.valueAlreadyVisited &&
               o2.started[0].ctx.valueAlreadyVisited && o3.started[0].ctx.valueAlreadyVisited)
  {
  }

  // ---------------------------------------------------------------------
  // The walk, as a function (a model of the external crawler)
  // ---------------------------------------------------------------------

  /** The walk-scoped state that changes: the visited set and the calls made so far. */
  datatype WalkState = WalkState(visited: set<NodeId>, calls: seq<Event>)

  function RuleAt(rules: Option<CrawlRules>): Option<VisitorCrawlRule> {
    if rules.None? then None else Some(RuleOf(rules.value))
  }

  /** The key the crawler offers the document root under. */
  const RootKey: Key := Prop("")

  /** One node: run the hook, crawl the children unless it said `done` (and
      while `fuel` lasts), then run its exit hook. */
  function WalkNode(doc: Document, visitor: OpenApiPathVisitor, resolver: Key -> Option<seq<ChainItem>>,
                    st: WalkState, key: Key, value: Value, rules: Option<CrawlRules>, fuel: nat): WalkState
    decreases fuel, 0
  {
    var out := HookStep(visitor, st.visited, key, value, RuleAt(rules), resolver(key));
    var entered := WalkState(out.visited, st.calls + out.started);
    var descended :=
      if !out.response.done && fuel > 0 && value.Ref? then
        WalkChildren(doc, visitor, resolver, entered, rules, Children(doc, value.id), fuel - 1)
      else entered;
    match out.response.exitHook
    case None => descended
    case Some(e) => WalkState(descended.visited, descended.calls + [ExitEvent(e)])
  }

  /** The children of one node, in order, each under the rule `Lookup` gives it. */
  function WalkChildren(doc: Document, visitor: OpenApiPathVisitor, resolver: Key -> Option<seq<ChainItem>>,
                        st: WalkState, parent: Option<CrawlRules>, cs: seq<(Key, Value)>, fuel: nat): WalkState
    decreases fuel, |cs|
  {
    if cs == [] then st
    else
      var before := WalkChildren(doc, visitor, resolver, st, parent, cs[..|cs| - 1], fuel);
      var last := cs[|cs| - 1];
      WalkNode(doc, visitor, resolver, before, last.0, last.1, ChildRules(doc, parent, last.0, last.1), fuel)
  }

  /** `r` continues `st`: the visited set has only grown, and the calls made
      since are a balanced start/end bracketing. */
  predicate Continues(st: WalkState, r: WalkState) {
    st.visited <= r.visited &&
    |st.calls| <= |r.calls| && r.calls[..|st.calls|] == st.calls &&
    Balanced(r.calls[|st.calls|..])
  }

  lemma ContinuesTrans(a: WalkState, b: WalkState, c: WalkState)
    requires Continues(a, b) && Continues(b, c)
    ensures Continues(a, c)
  {
    assert c.calls[|a.calls|..] == b.calls[|a.calls|..] + c.calls[|b.calls|..];
    BalancedConcat(b.calls[|a.calls|..], c.calls[|b.calls|..]);
  }

  /** Every node walk only grows the visited set, records its own value, and
      brackets its calls: each start is matched by the end with the same
      context after the subtree, whether or not the subtree was entered. */
  lemma {:induction false} WalkNodeContinues(doc: Document, visitor: OpenApiPathVisitor,
                                             resolver: Key -> Option<seq<ChainItem>>, st: WalkState,
                                             key: Key, value: Value, rules: Option<CrawlRules>, fuel: nat)
    ensures Continues(st, WalkNode(doc, visitor, resolver, st, key, value, rules, fuel))
    ensures !key.SymbolKey? && IsObject(value) ==>
              value.id in WalkNode(doc, visitor, resolver, st, key, value, rules, fuel).visited
    decreases fuel, 0
  {
    var out := HookStep(visitor, st.visited, key, value, RuleAt(rules), resolver(key));
    var entered := WalkState(out.visited, st.calls + out.started);
    var descended :=
      if !out.response.done && fuel > 0 && value.Ref? then
        WalkChildren(doc, visitor, resolver, entered, rules, Children(doc, value.id), fuel - 1)
      else entered;
    if !out.response.done && fuel > 0 && value.Ref? {
      WalkChildrenContinues(doc, visitor, resolver, entered, rules, Children(doc, value.id), fuel - 1);
    } else {
      assert descended.calls[|entered.calls|..] == [];
    }
    assert Continues(entered, descended);
    var r := WalkNode(doc, visitor, resolver, st, key, value, rules, fuel);
    match out.response.exitHook
    case None =>
      assert out.started == [];
      assert entered.calls == st.calls;
      assert r == descended;
    case Some(e) =>
      var seg := descended.calls[|entered.calls|..];
      assert r.calls == st.calls + out.started + seg + [ExitEvent(e)];
      assert r.calls[|st.calls|..] == [out.started[0]] + seg + [ExitEvent(e)];
      BalancedBracket(e.kind, e.ctx, seg, out.started[0].supplied, e.supplied);
  }

  lemma {:induction false} WalkChildrenContinues(doc: Document, visitor: OpenApiPathVisitor,
                                                 resolver: Key -> Option<seq<ChainItem>>, st: WalkState,
                                                 parent: Option<CrawlRules>, cs: seq<(Key, Value)>, fuel: nat)
    ensures Continues(st, WalkChildren(doc, visitor, resolver, st, parent, cs, fuel))
    decreases fuel, |cs|
  {
    if cs == [] {
      assert st.calls[|st.calls|..] == [];
    } else {
      var before := WalkChildren(doc, visitor, resolver, st, parent, cs[..|cs| - 1], fuel);
      var last := cs[|cs| - 1];
      WalkChildrenContinues(doc, visitor, resolver, st, parent, cs[..|cs| - 1], fuel);
      WalkNodeContinues(doc, visitor, resolver, before, last.0, last.1, ChildRules(doc, parent, last.0, last.1), fuel);
      ContinuesTrans(st, before, WalkChildren(doc, visitor, resolver, st, parent, cs, fuel));
    }
  }

  /** Default cycle stop: a value met again under a structural rule, or
      under a dispatching rule whose start the visitor left to the default,
      is not descended into; at most its own start and end are called, both
      with `valueAlreadyVisited` set, and the visited set is unchanged. */
  lemma RevisitIsNotEntered(doc: Document, visitor: OpenApiPathVisitor, resolver: Key -> Option<seq<ChainItem>>,
                            st: WalkState, key: Key, id: NodeId, rules: CrawlRules, fuel: nat)
    requires !key.SymbolKey? && id in st.visited && !RuleOf(rules).passthrough
    requires RuleOf(rules).Dispatches() ==> visitor.StartOf(RuleOf(rules).visitorMethodBase.value).None?
    ensures var r := WalkNode(doc, visitor, resolver, st, key, Ref(id), Some(rules), fuel);
            r.visited == st.visited && |st.calls| <= |r.calls| <= |st.calls| + 2 &&
            r.calls[..|st.calls|] == st.calls &&
            forall e :: e in r.calls[|st.calls|..] ==> e.ctx.value == id && e.ctx.valueAlreadyVisited
  {
    var out := HookStep(visitor, st.visited, key, Ref(id), RuleAt(Some(rules)), resolver(key));
    assert out.response.done;
  }

  /** A passthrough container is crawled into even when its value was
      visited before: a `properties` object shared by two schemas is entered
      again each time one of them is entered. */
  lemma PassthroughReentersVisited(doc: Document, visitor: OpenApiPathVisitor, resolver: Key -> Option<seq<ChainItem>>,
                                   st: WalkState, key: Key, id: NodeId, f: Flavor, fuel: nat)
    requires !key.SymbolKey? && fuel > 0
    ensures WalkNode(doc, visitor, resolver, st, key, Ref(id), Some(PropertiesMap(f)), fuel)
         == WalkChildren(doc, visitor, resolver, WalkState(st.visited + {id}, st.calls),
                         Some(PropertiesMap(f)), Children(doc, id), fuel - 1)
  {
    var out := HookStep(visitor, st.visited, key, Ref(id), RuleAt(Some(PropertiesMap(f))), resolver(key));
    assert out.started == [] && out.response.exitHook.None?;
    assert st.calls + out.started == st.calls;
  }

  // ---------------------------------------------------------------------
  // The walk state object and the walk as the program runs it
  // ---------------------------------------------------------------------

  /** `VisitorCrawlState`: the visitor, the internal options, the origins
      resolver and the walk's one identity set. `calls` stands for the
      effects of the start and end functions the hook invokes. */
  class VisitorCrawlState {
    const visitor: OpenApiPathVisitor
    const internalOptions: InternalVisitorOptions
    const selfOriginsResolver: Key -> Option<seq<ChainItem>>
    var visitedObjects: set<NodeId>
    var calls: seq<Event>

    /** A fresh state: nothing visited, nothing called. */
    constructor (visitor: OpenApiPathVisitor, internalOptions: InternalVisitorOptions,
                 selfOriginsResolver: Key -> Option<seq<ChainItem>>)
      ensures this.visitor == visitor && this.internalOptions == internalOptions
      ensures this.selfOriginsResolver == selfOriginsResolver
      ensures visitedObjects == {} && calls == []
    {
      this.visitor := visitor;
      this.internalOptions := internalOptions;
      this.selfOriginsResolver := selfOriginsResolver;
      visitedObjects := {};
      calls := [];
    }

    function State(): WalkState
      reads this
    {
      WalkState(visitedObjects, calls)
    }

    /** `OpenApiWalker.hook`: inserts the value into the visited set in place,
        invokes the start function of a dispatching rule and answers the
        crawler; the new state and the answer are those of `HookStep`. */
    method Hook(key: Key, value: Value, rules: Option<VisitorCrawlRule>) returns (response: CrawlHookResponse)
      modifies this
      ensures var out := HookStep(visitor, old(visitedObjects), key, value, rules, selfOriginsResolver(key));
              response == out.response && visitedObjects == out.visited && calls == old(calls) + out.started
    {
      if key.SymbolKey? {
        return Stop();
      }
      if !IsObject(value) {
        return Stop();
      }
      var alreadyVisited := value.id in visitedObjects;
      visitedObjects := visitedObjects + {value.id};
      if rules.None? {
        return Stop();
      }
      var rule := rules.value;
      if rule.passthrough {
        return CrawlHookResponse(false, Some(value), None);
      }
      if rule.createContext.None? || rule.visitorMethodBase.None? {
        return CrawlHookResponse(alreadyVisited, Some(value), None);
      }
      var kind := rule.visitorMethodBase.value;
      var ctx := CreateContext(rule.createContext.value, key, value.id,
                               selfOriginsResolver(key).GetOr([]), alreadyVisited);
      var startFn := ResolveStart(visitor, kind, alreadyVisited);
      var goDeeper := startFn(ctx);
      calls := calls + [Start(kind, ctx, visitor.StartOf(kind).Some?)];
      response := CrawlHookResponse(!goDeeper, Some(value), Some(CallEnd(kind, ctx, visitor.EndOf(kind).Some?)));
    }

    /** Runs an exit hook: the resolved end function is called with the
        context the start function received. */
    method RunExitHook(e: ExitHook)
      modifies this
      ensures visitedObjects == old(visitedObjects)
      ensures calls == old(calls) + [End(e.kind, e.ctx, e.supplied)]
    {
      calls := calls + [ExitEvent(e)];
    }

    /** The crawler on one node (a model of the external crawler): hook,
        children in order under their looked-up rules, exit hook. */
    method CrawlNode(doc: Document, key: Key, value: Value, rules: Option<CrawlRules>, fuel: nat)
      modifies this
      ensures State() == WalkNode(doc, visitor, selfOriginsResolver, old(State()), key, value, rules, fuel)
      decreases fuel
    {
      var response := Hook(key, value, RuleAt(rules));
      if !response.done && fuel > 0 && value.Ref? {
        var cs := Children(doc, value.id);
        ghost var entered := State();
        var i := 0;
        while i < |cs|
          invariant 0 <= i <= |cs|
          invariant State() == WalkChildren(doc, visitor, selfOriginsResolver, entered, rules, cs[..i], fuel - 1)
        {
          assert cs[..i + 1][..i] == cs[..i];
          CrawlNode(doc, cs[i].0, cs[i].1, ChildRules(doc, rules, cs[i].0, cs[i].1), fuel - 1);
          i := i + 1;
        }
        assert cs[..|cs|] == cs;
      }
      if response.exitHook.Some? {
        RunExitHook(response.exitHook.value);
      }
    }
  }

  // ---------------------------------------------------------------------
  // Entry points
  // ---------------------------------------------------------------------

  /** `walkOnNormalizedInternal`: a fresh state with an empty visited set,
      then the crawl from the document root under `openApiRules`. The calls
      made are balanced. */
  method WalkOnNormalizedInternal(doc: Document, source: Value, visitor: OpenApiPathVisitor,
                                  internalOptions: InternalVisitorOptions,
                                  resolver: Key -> Option<seq<ChainItem>>, fuel: nat)
    returns (calls: seq<Event>)
    ensures calls == WalkNode(doc, visitor, resolver, WalkState({}, []), RootKey, source, Some(ApiRoot), fuel).calls
    ensures Balanced(calls)
  {
    var state := new VisitorCrawlState(visitor, internalOptions, resolver);
    state.CrawlNode(doc, RootKey, source, Some(ApiRoot), fuel);
    calls := state.calls;
    WalkNodeContinues(doc, visitor, resolver, WalkState({}, []), RootKey, source, Some(ApiRoot), fuel);
    assert calls[0..] == calls;
  }

  /** `walkPathsOnNormalizedSource`: default the origins key, then walk. */
  method WalkPathsOnNormalizedSource(doc: Document, source: Value, visitor: OpenApiPathVisitor,
                                     options: Option<VisitorOptions>,
                                     resolver: Key -> Option<seq<ChainItem>>, fuel: nat)
    returns (calls: seq<Event>)
    ensures calls == WalkNode(doc, visitor, resolver, WalkState({}, []), RootKey, source, Some(ApiRoot), fuel).calls
    ensures Balanced(calls)
  {
    var internalOptions := InternalOptions(options);
    calls := WalkOnNormalizedInternal(doc, source, visitor, internalOptions, resolver, fuel);
  }

  /** `walkPaths`: assemble the normalizer options, let the external
      normalize/denormalize pipeline (`pipeline`) produce the document graph
      and its root, then walk it. */
  method WalkPaths(pipeline: NormalizeOptions -> (Document, Value), visitor: OpenApiPathVisitor,
                   options: Option<NormalizeOptions>, resolver: Key -> Option<seq<ChainItem>>, fuel: nat)
    returns (calls: seq<Event>)
    ensures var g := pipeline(WalkPathsNormalizeOptions(options));
            calls == WalkNode(g.0, visitor, resolver, WalkState({}, []), RootKey, g.1, Some(ApiRoot), fuel).calls
    ensures Balanced(calls)
  {
    var normalizeOptions := WalkPathsNormalizeOptions(options);
    var cycledJsoSpec := pipeline(normalizeOptions);
    calls := WalkPathsOnNormalizedSource(cycledJsoSpec.0, cycledJsoSpec.1, visitor,
                                         Some(VisitorOptions(normalizeOptions.originsFlag)), resolver, fuel);
  }
}
