/** Whole walks over small hand-built documents, in the shape the
    normalize/denormalize pipeline hands to the walker: every `$ref` is
    already replaced by the node it points to, so a shared schema is one
    node reached along several paths. Each walk is proved node by node: one
    lemma per node, over any walk state that has not yet seen the nodes the
    lemma needs to be fresh. */
module WalkerScenarios {
  import opened Wrappers
  import opened JsonGraph
  import opened OpenApiTypes
  import opened OpenApiRules
  import opened CallTrace
  import opened OpenApiWalker

  // ---------------------------------------------------------------------
  // Generic steps of the crawler model
  // ---------------------------------------------------------------------

  /** A primitive value is neither recorded nor entered and calls nothing. */
  lemma PrimitiveIsSkipped(doc: Document, visitor: OpenApiPathVisitor, resolver: Key -> Option<seq<ChainItem>>,
                           st: WalkState, key: Key, value: Value, rules: Option<CrawlRules>, fuel: nat)
    requires !value.Ref?
    ensures WalkNode(doc, visitor, resolver, st, key, value, rules, fuel) == st
  {
    var out := HookStep(visitor, st.visited, key, value, RuleAt(rules), resolver(key));
    assert out == HookOutcome(Stop(), st.visited, []);
    assert st.calls + [] == st.calls;
  }

  /** An object child the rule tree has no rule for is recorded but not entered. */
  lemma UnruledIsRecordedOnly(doc: Document, visitor: OpenApiPathVisitor, resolver: Key -> Option<seq<ChainItem>>,
                              st: WalkState, key: Key, id: NodeId, fuel: nat)
    requires !key.SymbolKey?
    ensures WalkNode(doc, visitor, resolver, st, key, Ref(id), None, fuel) == WalkState(st.visited + {id}, st.calls)
  {
    var out := HookStep(visitor, st.visited, key, Ref(id), RuleAt(None), resolver(key));
    assert out.started == [] && out.response == Stop();
    assert st.calls + [] == st.calls;
  }

  /** A dispatching rule whose start says "go deeper": the start call, the
      children, then the end call on the same context. */
  lemma EnteredDispatch(doc: Document, visitor: OpenApiPathVisitor, resolver: Key -> Option<seq<ChainItem>>,
                        st: WalkState, key: Key, id: NodeId, rules: CrawlRules, fuel: nat)
    requires !key.SymbolKey? && fuel > 0
    requires RuleOf(rules).Dispatches() && !RuleOf(rules).passthrough
    requires var kind := RuleOf(rules).visitorMethodBase.value;
             ResolveStart(visitor, kind, id in st.visited)(
               CreateContext(RuleOf(rules).createContext.value, key, id, resolver(key).GetOr([]), id in st.visited))
    ensures var kind := RuleOf(rules).visitorMethodBase.value;
            var ctx := CreateContext(RuleOf(rules).createContext.value, key, id, resolver(key).GetOr([]), id in st.visited);
            var d := WalkChildren(doc, visitor, resolver,
                                  WalkState(st.visited + {id}, st.calls + [Start(kind, ctx, visitor.StartOf(kind).Some?)]),
                                  Some(rules), Children(doc, id), fuel - 1);
            WalkNode(doc, visitor, resolver, st, key, Ref(id), Some(rules), fuel)
            == WalkState(d.visited, d.calls + [End(kind, ctx, visitor.EndOf(kind).Some?)])
  {
  }

  /** A structural rule on a value not seen before: recorded, then the children. */
  lemma EnteredStructural(doc: Document, visitor: OpenApiPathVisitor, resolver: Key -> Option<seq<ChainItem>>,
                          st: WalkState, key: Key, id: NodeId, rules: CrawlRules, fuel: nat)
    requires !key.SymbolKey? && fuel > 0 && id !in st.visited
    requires !RuleOf(rules).Dispatches() && !RuleOf(rules).passthrough
    ensures WalkNode(doc, visitor, resolver, st, key, Ref(id), Some(rules), fuel)
         == WalkChildren(doc, visitor, resolver, WalkState(st.visited + {id}, st.calls),
                         Some(rules), Children(doc, id), fuel - 1)
  {
    var out := HookStep(visitor, st.visited, key, Ref(id), RuleAt(Some(rules)), resolver(key));
    assert out.started == [] && out.response.exitHook.None?;
    assert st.calls + [] == st.calls;
  }

  lemma OneChild(doc: Document, visitor: OpenApiPathVisitor, resolver: Key -> Option<seq<ChainItem>>,
                 st: WalkState, parent: Option<CrawlRules>, c: (Key, Value), fuel: nat)
    ensures WalkChildren(doc, visitor, resolver, st, parent, [c], fuel)
         == WalkNode(doc, visitor, resolver, st, c.0, c.1, ChildRules(doc, parent, c.0, c.1), fuel)
  {
    assert [c][..0] == [];
  }

  /** Primitive children change nothing. */
  lemma {:induction false} PrimitivesSkipped(doc: Document, visitor: OpenApiPathVisitor,
                                             resolver: Key -> Option<seq<ChainItem>>, st: WalkState,
                                             parent: Option<CrawlRules>, cs: seq<(Key, Value)>, fuel: nat)
    requires forall i :: 0 <= i < |cs| ==> !cs[i].1.Ref?
    ensures WalkChildren(doc, visitor, resolver, st, parent, cs, fuel) == st
    decreases |cs|
  {
    if cs != [] {
      var last := cs[|cs| - 1];
      PrimitivesSkipped(doc, visitor, resolver, st, parent, cs[..|cs| - 1], fuel);
      PrimitiveIsSkipped(doc, visitor, resolver, st, last.0, last.1, ChildRules(doc, parent, last.0, last.1), fuel);
    }
  }

  /** Primitive children, then one more child: only the last one counts. */
  lemma LastAfterPrimitives(doc: Document, visitor: OpenApiPathVisitor, resolver: Key -> Option<seq<ChainItem>>,
                            st: WalkState, parent: Option<CrawlRules>, pre: seq<(Key, Value)>, c: (Key, Value), fuel: nat)
    requires forall i :: 0 <= i < |pre| ==> !pre[i].1.Ref?
    ensures WalkChildren(doc, visitor, resolver, st, parent, pre + [c], fuel)
         == WalkNode(doc, visitor, resolver, st, c.0, c.1, ChildRules(doc, parent, c.0, c.1), fuel)
  {
    assert (pre + [c])[..|pre|] == pre;
    PrimitivesSkipped(doc, visitor, resolver, st, parent, pre, fuel);
  }

  /** Everything the hook needs to dispatch `kind` on node `id` with context
      `ctx` and go deeper; `ss` and `se` say whether the start and the end
      function are the visitor's own. */
  predicate DispatchesInto(visitor: OpenApiPathVisitor, resolver: Key -> Option<seq<ChainItem>>, st: WalkState,
                           key: Key, id: NodeId, rules: CrawlRules, kind: DispatchKind,
                           ctx: VisitorCallbackArgument, ss: bool, se: bool)
  {
    !key.SymbolKey? && RuleOf(rules).Dispatches() && !RuleOf(rules).passthrough &&
    RuleOf(rules).visitorMethodBase == Some(kind) &&
    ctx == CreateContext(RuleOf(rules).createContext.value, key, id, resolver(key).GetOr([]), id in st.visited) &&
    ResolveStart(visitor, kind, id in st.visited)(ctx) &&
    visitor.StartOf(kind).Some? == ss && visitor.EndOf(kind).Some? == se
  }

  /** A dispatching node whose children are all primitives: its start and its end, nothing between. */
  lemma DispatchedLeaf(doc: Document, visitor: OpenApiPathVisitor, resolver: Key -> Option<seq<ChainItem>>,
                       st: WalkState, key: Key, id: NodeId, rules: CrawlRules, kind: DispatchKind,
                       ctx: VisitorCallbackArgument, ss: bool, se: bool, fuel: nat)
    requires fuel > 0 && DispatchesInto(visitor, resolver, st, key, id, rules, kind, ctx, ss, se)
    requires forall i :: 0 <= i < |Children(doc, id)| ==> !Children(doc, id)[i].1.Ref?
    ensures WalkNode(doc, visitor, resolver, st, key, Ref(id), Some(rules), fuel)
         == WalkState(st.visited + {id}, st.calls + [Start(kind, ctx, ss)] + [End(kind, ctx, se)])
  {
    var entered := WalkState(st.visited + {id}, st.calls + [Start(kind, ctx, ss)]);
    EnteredDispatch(doc, visitor, resolver, st, key, id, rules, fuel);
    PrimitivesSkipped(doc, visitor, resolver, entered, Some(rules), Children(doc, id), fuel - 1);
  }

  /** A dispatching node whose children are primitives followed by one last
      child: its start, that child's walk, its end. */
  lemma DispatchedStep(doc: Document, visitor: OpenApiPathVisitor, resolver: Key -> Option<seq<ChainItem>>,
                       st: WalkState, key: Key, id: NodeId, rules: CrawlRules, kind: DispatchKind,
                       ctx: VisitorCallbackArgument, ss: bool, se: bool,
                       pre: seq<(Key, Value)>, ckey: Key, cval: Value, crules: CrawlRules, fuel: nat)
    requires fuel > 0 && DispatchesInto(visitor, resolver, st, key, id, rules, kind, ctx, ss, se)
    requires Children(doc, id) == pre + [(ckey, cval)]
    requires forall i :: 0 <= i < |pre| ==> !pre[i].1.Ref?
    requires ChildRules(doc, Some(rules), ckey, cval) == Some(crules)
    ensures var d := WalkNode(doc, visitor, resolver, WalkState(st.visited + {id}, st.calls + [Start(kind, ctx, ss)]),
                              ckey, cval, Some(crules), fuel - 1);
            WalkNode(doc, visitor, resolver, st, key, Ref(id), Some(rules), fuel)
            == WalkState(d.visited, d.calls + [End(kind, ctx, se)])
  {
    var entered := WalkState(st.visited + {id}, st.calls + [Start(kind, ctx, ss)]);
    EnteredDispatch(doc, visitor, resolver, st, key, id, rules, fuel);
    LastAfterPrimitives(doc, visitor, resolver, entered, Some(rules), pre, (ckey, cval), fuel - 1);
  }

  /** A start and an end that are not a property start add no name around
      what the calls between them added. */
  lemma SilentBracket(calls: seq<Event>, start: Event, inner: seq<Event>, end: Event, added: seq<Key>)
    requires start.kind != SchemaProperty && end.End?
    requires PropertyNamesStarted(inner) == PropertyNamesStarted(calls + [start]) + added
    ensures PropertyNamesStarted(inner + [end]) == PropertyNamesStarted(calls) + added
  {
    PropertyNamesOfAppended(calls, start);
    PropertyNamesOfAppended(inner, end);
    assert PropertyNamesStarted(calls) + [] == PropertyNamesStarted(calls);
    assert PropertyNamesStarted(inner) + [] == PropertyNamesStarted(inner);
  }

  /** A dispatching node, not a property, whose children are primitives
      followed by one last child: its walk visits what the child's walk
      visits, and its start and end add no property name. */
  lemma DispatchedChild(doc: Document, visitor: OpenApiPathVisitor, resolver: Key -> Option<seq<ChainItem>>,
                        st: WalkState, key: Key, id: NodeId, rules: CrawlRules, kind: DispatchKind,
                        ctx: VisitorCallbackArgument, ss: bool, se: bool,
                        pre: seq<(Key, Value)>, ckey: Key, cval: Value, crules: CrawlRules,
                        added: seq<Key>, fuel: nat)
    requires fuel > 0 && kind != SchemaProperty && DispatchesInto(visitor, resolver, st, key, id, rules, kind, ctx, ss, se)
    requires Children(doc, id) == pre + [(ckey, cval)]
    requires forall i :: 0 <= i < |pre| ==> !pre[i].1.Ref?
    requires ChildRules(doc, Some(rules), ckey, cval) == Some(crules)
    ensures var d := WalkNode(doc, visitor, resolver, WalkState(st.visited + {id}, st.calls + [Start(kind, ctx, ss)]),
                              ckey, cval, Some(crules), fuel - 1);
            var r := WalkNode(doc, visitor, resolver, st, key, Ref(id), Some(rules), fuel);
            r.visited == d.visited &&
            (PropertyNamesStarted(d.calls) == PropertyNamesStarted(st.calls + [Start(kind, ctx, ss)]) + added ==>
               PropertyNamesStarted(r.calls) == PropertyNamesStarted(st.calls) + added)
  {
    var d := WalkNode(doc, visitor, resolver, WalkState(st.visited + {id}, st.calls + [Start(kind, ctx, ss)]),
                      ckey, cval, Some(crules), fuel - 1);
    DispatchedStep(doc, visitor, resolver, st, key, id, rules, kind, ctx, ss, se, pre, ckey, cval, crules, fuel);
    if PropertyNamesStarted(d.calls) == PropertyNamesStarted(st.calls + [Start(kind, ctx, ss)]) + added {
      SilentBracket(st.calls, Start(kind, ctx, ss), d.calls, End(kind, ctx, se), added);
    }
  }

  /** A structural node not seen before whose only child is `(ckey, cval)`. */
  lemma StructuralChild(doc: Document, visitor: OpenApiPathVisitor, resolver: Key -> Option<seq<ChainItem>>,
                        st: WalkState, key: Key, id: NodeId, rules: CrawlRules,
                        ckey: Key, cval: Value, crules: CrawlRules, fuel: nat)
    requires !key.SymbolKey? && fuel > 0 && id !in st.visited
    requires !RuleOf(rules).Dispatches() && !RuleOf(rules).passthrough
    requires Children(doc, id) == [(ckey, cval)]
    requires ChildRules(doc, Some(rules), ckey, cval) == Some(crules)
    ensures WalkNode(doc, visitor, resolver, st, key, Ref(id), Some(rules), fuel)
         == WalkNode(doc, visitor, resolver, WalkState(st.visited + {id}, st.calls), ckey, cval, Some(crules), fuel - 1)
  {
    EnteredStructural(doc, visitor, resolver, st, key, id, rules, fuel);
    OneChild(doc, visitor, resolver, WalkState(st.visited + {id}, st.calls), Some(rules), (ckey, cval), fuel - 1);
  }

  /** Two children in order; `mid` is the state after the first. */
  lemma TwoChildren(doc: Document, visitor: OpenApiPathVisitor, resolver: Key -> Option<seq<ChainItem>>,
                    st: WalkState, parent: Option<CrawlRules>, c0: (Key, Value), c1: (Key, Value),
                    mid: WalkState, fuel: nat)
    requires WalkNode(doc, visitor, resolver, st, c0.0, c0.1, ChildRules(doc, parent, c0.0, c0.1), fuel) == mid
    ensures WalkChildren(doc, visitor, resolver, st, parent, [c0, c1], fuel)
         == WalkNode(doc, visitor, resolver, mid, c1.0, c1.1, ChildRules(doc, parent, c1.0, c1.1), fuel)
  {
    assert [c0, c1][..1] == [c0];
    OneChild(doc, visitor, resolver, st, parent, c0, fuel);
  }

  /** Three children in order; `mid` is the state after the first two. */
  lemma ThreeChildren(doc: Document, visitor: OpenApiPathVisitor, resolver: Key -> Option<seq<ChainItem>>,
                      st: WalkState, parent: Option<CrawlRules>, c0: (Key, Value), c1: (Key, Value),
                      c2: (Key, Value), mid: WalkState, fuel: nat)
    requires WalkChildren(doc, visitor, resolver, st, parent, [c0, c1], fuel) == mid
    ensures WalkChildren(doc, visitor, resolver, st, parent, [c0, c1, c2], fuel)
         == WalkNode(doc, visitor, resolver, mid, c2.0, c2.1, ChildRules(doc, parent, c2.0, c2.1), fuel)
  {
    assert [c0, c1, c2][..2] == [c0, c1];
  }

  /** A structural node not seen before with two children: the second
      child's walk starts from the state the first one's left. */
  lemma StructuralTwo(doc: Document, visitor: OpenApiPathVisitor, resolver: Key -> Option<seq<ChainItem>>,
                      st: WalkState, key: Key, id: NodeId, rules: CrawlRules,
                      k0: Key, v0: Value, r0: Option<CrawlRules>, k1: Key, v1: Value, r1: Option<CrawlRules>, fuel: nat)
    requires !key.SymbolKey? && fuel > 0 && id !in st.visited
    requires !RuleOf(rules).Dispatches() && !RuleOf(rules).passthrough
    requires Children(doc, id) == [(k0, v0), (k1, v1)]
    requires ChildRules(doc, Some(rules), k0, v0) == r0 && ChildRules(doc, Some(rules), k1, v1) == r1
    ensures var e := WalkState(st.visited + {id}, st.calls);
            WalkNode(doc, visitor, resolver, st, key, Ref(id), Some(rules), fuel)
            == WalkNode(doc, visitor, resolver, WalkNode(doc, visitor, resolver, e, k0, v0, r0, fuel - 1), k1, v1, r1, fuel - 1)
  {
    var e := WalkState(st.visited + {id}, st.calls);
    EnteredStructural(doc, visitor, resolver, st, key, id, rules, fuel);
    TwoChildren(doc, visitor, resolver, e, Some(rules), (k0, v0), (k1, v1),
                WalkNode(doc, visitor, resolver, e, k0, v0, r0, fuel - 1), fuel - 1);
  }

  /** A structural node not seen before with three children, walked in order. */
  lemma StructuralThree(doc: Document, visitor: OpenApiPathVisitor, resolver: Key -> Option<seq<ChainItem>>,
                        st: WalkState, key: Key, id: NodeId, rules: CrawlRules,
                        k0: Key, v0: Value, r0: Option<CrawlRules>, k1: Key, v1: Value, r1: Option<CrawlRules>,
                        k2: Key, v2: Value, r2: Option<CrawlRules>, fuel: nat)
    requires !key.SymbolKey? && fuel > 0 && id !in st.visited
    requires !RuleOf(rules).Dispatches() && !RuleOf(rules).passthrough
    requires Children(doc, id) == [(k0, v0), (k1, v1), (k2, v2)]
    requires ChildRules(doc, Some(rules), k0, v0) == r0 && ChildRules(doc, Some(rules), k1, v1) == r1
    requires ChildRules(doc, Some(rules), k2, v2) == r2
    ensures var e := WalkState(st.visited + {id}, st.calls);
            var m := WalkNode(doc, visitor, resolver, WalkNode(doc, visitor, resolver, e, k0, v0, r0, fuel - 1),
                              k1, v1, r1, fuel - 1);
            WalkNode(doc, visitor, resolver, st, key, Ref(id), Some(rules), fuel)
            == WalkNode(doc, visitor, resolver, m, k2, v2, r2, fuel - 1)
  {
    var e := WalkState(st.visited + {id}, st.calls);
    var first := WalkNode(doc, visitor, resolver, e, k0, v0, r0, fuel - 1);
    EnteredStructural(doc, visitor, resolver, st, key, id, rules, fuel);
    TwoChildren(doc, visitor, resolver, e, Some(rules), (k0, v0), (k1, v1), first, fuel - 1);
    ThreeChildren(doc, visitor, resolver, e, Some(rules), (k0, v0), (k1, v1), (k2, v2),
                  WalkNode(doc, visitor, resolver, first, k1, v1, r1, fuel - 1), fuel - 1);
  }

  /** The property name a `schemaProperty` start carries, if the call is one. */
  function StartedName(e: Event): seq<Key> {
    if e.Start? && e.kind == SchemaProperty && e.ctx.extra.Field? then [e.ctx.extra.content] else []
  }

  /** The property names a sequence of calls carries, in call order. */
  function PropertyNames(calls: seq<Event>): (names: seq<Key>)
    ensures |names| <= |calls|
    decreases |calls|
  {
    if calls == [] then []
    else StartedName(calls[0]) + PropertyNames(calls[1..])
  }

  lemma {:induction false} PropertyNamesAppend(a: seq<Event>, b: seq<Event>)
    ensures PropertyNames(a + b) == PropertyNames(a) + PropertyNames(b)
    decreases |a|
  {
    if a == [] {
      assert a + b == b;
    } else {
      var ab := a + b;
      assert ab[0] == a[0];
      assert ab[1..] == a[1..] + b;
      PropertyNamesAppend(a[1..], b);
      var h := StartedName(a[0]);
      calc {
        PropertyNames(ab);
        h + PropertyNames(a[1..] + b);
        h + (PropertyNames(a[1..]) + PropertyNames(b));
        (h + PropertyNames(a[1..])) + PropertyNames(b);
      }
    }
  }

  /** The property names the visitor's own `schemaPropertyStart` received:
      those of the calls the visitor sees, in order. */
  function PropertyNamesStarted(calls: seq<Event>): (names: seq<Key>)
    ensures |names| <= |calls|
  {
    PropertyNames(VisibleCalls(calls))
  }

  /** One more call adds its property name exactly when it is the visitor's own. */
  lemma PropertyNamesOfAppended(calls: seq<Event>, e: Event)
    ensures PropertyNamesStarted(calls + [e]) == PropertyNamesStarted(calls) + (if e.supplied then StartedName(e) else [])
  {
    VisibleCallsAppend(calls, [e]);
    VisibleCallsOne(e);
    PropertyNamesAppend(VisibleCalls(calls), VisibleCalls([e]));
    assert [e][1..] == [];
  }

  /** The names of a node walk that made only its own start and end calls. */
  lemma BracketedLeaf(st: WalkState, s: Event, e: Event, r: WalkState)
    requires e.End? && r.calls == st.calls + [s] + [e]
    ensures PropertyNamesStarted(r.calls) == PropertyNamesStarted(st.calls) + (if s.supplied then StartedName(s) else [])
  {
    PropertyNamesOfAppended(st.calls, s);
    PropertyNamesOfAppended(st.calls + [s], e);
  }

  // ---------------------------------------------------------------------
  // A `properties` object shared by two schemas
  // ---------------------------------------------------------------------

  /** Two responses whose array schemas (11 and 12) both take their items
      from the one `Category` schema (13); its `properties` object (14) holds
      the single property `shouldVisitTwice` (15). */
  const SharedDoc: Document := map[
    0 := Obj([(Prop("openapi"), StrVal("3.0.0")), (Prop("paths"), Ref(1)), (Prop("components"), Ref(16))]),
    1 := Obj([(Prop("/api/v1/test"), Ref(2))]),
    2 := Obj([(Prop("get"), Ref(3))]),
    3 := Obj([(Prop("responses"), Ref(4))]),
    4 := Obj([(Prop("200"), Ref(5)), (Prop("201"), Ref(6))]),
    5 := Obj([(Prop("content"), Ref(7))]),
    6 := Obj([(Prop("content"), Ref(8))]),
    7 := Obj([(Prop("application/json"), Ref(9))]),
    8 := Obj([(Prop("application/json"), Ref(10))]),
    9 := Obj([(Prop("schema"), Ref(11))]),
    10 := Obj([(Prop("schema"), Ref(12))]),
    11 := Obj([(Prop("type"), StrVal("array")), (Prop("items"), Ref(13))]),
    12 := Obj([(Prop("type"), StrVal("array")), (Prop("items"), Ref(13))]),
    13 := Obj([(Prop("type"), StrVal("object")), (Prop("properties"), Ref(14))]),
    14 := Obj([(Prop("shouldVisitTwice"), Ref(15))]),
    15 := Obj([(Prop("type"), StrVal("number"))]),
    16 := Obj([(Prop("schemas"), Ref(17))]),
    17 := Obj([(Prop("Category"), Ref(13))])
  ]


  /** An array schema whose items are the `Category` schema. */
  const ArrayOfCategory: seq<(Key, Value)> := [(Prop("type"), StrVal("array")), (Prop("items"), Ref(13))]

  /** `Category` (13), its `properties` object (14) and the property (15). */
  predicate CategoryShape(doc: Document) {
    Children(doc, 13) == [(Prop("type"), StrVal("object")), (Prop("properties"), Ref(14))] &&
    Children(doc, 14) == [(Prop("shouldVisitTwice"), Ref(15))] &&
    Children(doc, 15) == [(Prop("type"), StrVal("number"))]
  }

  /** A response `id` whose `content` map `cid` holds the one media type
      `mid`, whose schema `sid` is an array of `Category`. */
  predicate ResponseShape(doc: Document, id: NodeId, cid: NodeId, mid: NodeId, sid: NodeId) {
    Children(doc, id) == [(Prop("content"), Ref(cid))] &&
    Children(doc, cid) == [(Prop("application/json"), Ref(mid))] &&
    Children(doc, mid) == [(Prop("schema"), Ref(sid))] &&
    Children(doc, sid) == ArrayOfCategory
  }

  /** The children of every node the walk enters, as a property of any
      document, so that the node lemmas need not evaluate the literal. */
  predicate SharedShape(doc: Document) {
    Children(doc, 0) == [(Prop("openapi"), StrVal("3.0.0")), (Prop("paths"), Ref(1)), (Prop("components"), Ref(16))] &&
    Children(doc, 1) == [(Prop("/api/v1/test"), Ref(2))] &&
    Children(doc, 2) == [(Prop("get"), Ref(3))] &&
    Children(doc, 3) == [(Prop("responses"), Ref(4))] &&
    Children(doc, 4) == [(Prop("200"), Ref(5)), (Prop("201"), Ref(6))] &&
    ResponseShape(doc, 5, 7, 9, 11) && ResponseShape(doc, 6, 8, 10, 12) && CategoryShape(doc)
  }

  lemma SharedDocShape()
    ensures SharedShape(SharedDoc)
  {
    SharedDocPaths();
    SharedDocFirstResponse();
    SharedDocSecondResponse();
    SharedDocCategory();
  }

  lemma SharedDocPaths()
    ensures Children(SharedDoc, 0) == [(Prop("openapi"), StrVal("3.0.0")), (Prop("paths"), Ref(1)), (Prop("components"), Ref(16))]
    ensures Children(SharedDoc, 1) == [(Prop("/api/v1/test"), Ref(2))]
    ensures Children(SharedDoc, 2) == [(Prop("get"), Ref(3))]
    ensures Children(SharedDoc, 3) == [(Prop("responses"), Ref(4))]
    ensures Children(SharedDoc, 4) == [(Prop("200"), Ref(5)), (Prop("201"), Ref(6))]
  {
  }

  lemma SharedDocFirstResponse()
    ensures ResponseShape(SharedDoc, 5, 7, 9, 11)
  {
  }

  lemma SharedDocSecondResponse()
    ensures ResponseShape(SharedDoc, 6, 8, 10, 12)
  {
  }

  lemma SharedDocCategory()
    ensures CategoryShape(SharedDoc)
  {
  }

  /** A visitor whose schema root, property and items starts always go deeper. */
  function AlwaysDeeper(): StartFn { _ => true }

  function SchemaVisitor(): OpenApiPathVisitor {
    EmptyVisitor.(schemaRootStart := Some(AlwaysDeeper()), schemaPropertyStart := Some(AlwaysDeeper()),
                  schemaItemsStart := Some(AlwaysDeeper()))
  }

  /** The origins resolver of a document without origin metadata. */
  function NoOrigins(): Key -> Option<seq<ChainItem>> { _ => None }

  const VisitTwice: Key := Prop("shouldVisitTwice")

  /** One node walk with the schema visitor. */
  function Shared(doc: Document, st: WalkState, key: Key, id: NodeId, rules: CrawlRules, fuel: nat): WalkState {
    WalkNode(doc, SchemaVisitor(), NoOrigins(), st, key, Ref(id), Some(rules), fuel)
  }

  // The rule and context facts of each node, each proved on its own.

  lemma PropertyFacts(doc: Document, st: WalkState)
    requires Children(doc, 15) == [(Prop("type"), StrVal("number"))]
    ensures forall i :: 0 <= i < |Children(doc, 15)| ==> !Children(doc, 15)[i].1.Ref?
    ensures DispatchesInto(SchemaVisitor(), NoOrigins(), st, VisitTwice, 15, Schema(OpenApi30, PropertySite),
                           SchemaProperty, VisitorCallbackArgument(15, [], 15 in st.visited, Field(PropertyNameField, VisitTwice)),
                           true, false)
  {
  }

  lemma PropertiesFacts(doc: Document)
    ensures ChildRules(doc, Some(PropertiesMap(OpenApi30)), VisitTwice, Ref(15)) == Some(Schema(OpenApi30, PropertySite))
  {
  }

  lemma CategoryFacts(doc: Document, st: WalkState)
    ensures DispatchesInto(SchemaVisitor(), NoOrigins(), st, Prop("items"), 13, Schema(OpenApi30, ItemsSite),
                           SchemaItems, VisitorCallbackArgument(13, [], 13 in st.visited, NoField), true, false)
    ensures ChildRules(doc, Some(Schema(OpenApi30, ItemsSite)), Prop("properties"), Ref(14)) == Some(PropertiesMap(OpenApi30))
  {
  }

  lemma ArraySchemaFacts(doc: Document, st: WalkState, id: NodeId)
    ensures DispatchesInto(SchemaVisitor(), NoOrigins(), st, Prop("schema"), id, Schema(OpenApi30, RootSite),
                           SchemaRoot, VisitorCallbackArgument(id, [], id in st.visited, NoField), true, false)
    ensures ChildRules(doc, Some(Schema(OpenApi30, RootSite)), Prop("items"), Ref(13)) == Some(Schema(OpenApi30, ItemsSite))
  {
  }

  lemma MediaTypeFacts(doc: Document, st: WalkState, id: NodeId, sid: NodeId)
    requires id !in st.visited
    ensures DispatchesInto(SchemaVisitor(), NoOrigins(), st, Prop("application/json"), id, MediaTypeRules, MediaType,
                           VisitorCallbackArgument(id, [], false, Field(MediaTypeField, Prop("application/json"))), false, false)
    ensures ChildRules(doc, Some(MediaTypeRules), Prop("schema"), Ref(sid)) == Some(Schema(OpenApi30, RootSite))
  {
  }

  lemma ContentFacts(doc: Document, mid: NodeId)
    ensures !RuleOf(MediaTypesRules).Dispatches() && !RuleOf(MediaTypesRules).passthrough
    ensures ChildRules(doc, Some(MediaTypesRules), Prop("application/json"), Ref(mid)) == Some(MediaTypeRules)
  {
  }

  lemma ResponseFacts(doc: Document, st: WalkState, code: Key, id: NodeId, cid: NodeId)
    requires code.Prop? && id !in st.visited
    ensures DispatchesInto(SchemaVisitor(), NoOrigins(), st, code, id, ResponseRules, Response,
                           VisitorCallbackArgument(id, [], false, Field(ResponseCodeField, code)), false, false)
    ensures ChildRules(doc, Some(ResponseRules), Prop("content"), Ref(cid)) == Some(MediaTypesRules)
  {
  }

  /** The property: its own start receives its name, on every visit. */
  lemma SharedProperty(doc: Document, st: WalkState, fuel: nat)
    requires Children(doc, 15) == [(Prop("type"), StrVal("number"))] && fuel >= 1
    ensures var r := Shared(doc, st, VisitTwice, 15, Schema(OpenApi30, PropertySite), fuel);
            r.visited == st.visited + {15} &&
            PropertyNamesStarted(r.calls) == PropertyNamesStarted(st.calls) + [VisitTwice]
  {
    var rules := Schema(OpenApi30, PropertySite);
    var ctx := VisitorCallbackArgument(15, [], 15 in st.visited, Field(PropertyNameField, VisitTwice));
    PropertyFacts(doc, st);
    DispatchedLeaf(doc, SchemaVisitor(), NoOrigins(), st, VisitTwice, 15, rules, SchemaProperty, ctx, true, false, fuel);
    BracketedLeaf(st, Start(SchemaProperty, ctx, true), End(SchemaProperty, ctx, false),
                  Shared(doc, st, VisitTwice, 15, rules, fuel));
  }

  /** The passthrough `properties` object is entered on every visit. */
  lemma SharedProperties(doc: Document, st: WalkState, fuel: nat)
    requires Children(doc, 14) == [(VisitTwice, Ref(15))]
    requires Children(doc, 15) == [(Prop("type"), StrVal("number"))] && fuel >= 2
    ensures var r := Shared(doc, st, Prop("properties"), 14, PropertiesMap(OpenApi30), fuel);
            r.visited == st.visited + {14} + {15} &&
            PropertyNamesStarted(r.calls) == PropertyNamesStarted(st.calls) + [VisitTwice]
  {
    var entered := WalkState(st.visited + {14}, st.calls);
    PropertiesFacts(doc);
    PassthroughReentersVisited(doc, SchemaVisitor(), NoOrigins(), st, Prop("properties"), 14, OpenApi30, fuel);
    OneChild(doc, SchemaVisitor(), NoOrigins(), entered, Some(PropertiesMap(OpenApi30)), (VisitTwice, Ref(15)), fuel - 1);
    SharedProperty(doc, entered, fuel - 1);
  }

  /** `Category` as an items schema: entered on every visit, since its start goes deeper. */
  lemma SharedCategory(doc: Document, st: WalkState, fuel: nat)
    requires CategoryShape(doc) && fuel >= 3
    ensures var r := Shared(doc, st, Prop("items"), 13, Schema(OpenApi30, ItemsSite), fuel);
            r.visited == st.visited + {13} + {14} + {15} &&
            PropertyNamesStarted(r.calls) == PropertyNamesStarted(st.calls) + [VisitTwice]
  {
    var ctx := VisitorCallbackArgument(13, [], 13 in st.visited, NoField);
    var entered := WalkState(st.visited + {13}, st.calls + [Start(SchemaItems, ctx, true)]);
    assert Children(doc, 13) == [(Prop("type"), StrVal("object"))] + [(Prop("properties"), Ref(14))];
    CategoryFacts(doc, st);
    DispatchedChild(doc, SchemaVisitor(), NoOrigins(), st, Prop("items"), 13, Schema(OpenApi30, ItemsSite),
                    SchemaItems, ctx, true, false, [(Prop("type"), StrVal("object"))],
                    Prop("properties"), Ref(14), PropertiesMap(OpenApi30), [VisitTwice], fuel);
    SharedProperties(doc, entered, fuel - 1);
  }

  /** The array schema `id` under a media type: entered on every visit. */
  lemma SharedArraySchema(doc: Document, st: WalkState, id: NodeId, fuel: nat)
    requires CategoryShape(doc) && Children(doc, id) == ArrayOfCategory && fuel >= 4
    ensures var r := Shared(doc, st, Prop("schema"), id, Schema(OpenApi30, RootSite), fuel);
            r.visited == st.visited + {id} + {13} + {14} + {15} &&
            PropertyNamesStarted(r.calls) == PropertyNamesStarted(st.calls) + [VisitTwice]
  {
    var ctx := VisitorCallbackArgument(id, [], id in st.visited, NoField);
    var entered := WalkState(st.visited + {id}, st.calls + [Start(SchemaRoot, ctx, true)]);
    assert Children(doc, id) == [(Prop("type"), StrVal("array"))] + [(Prop("items"), Ref(13))];
    ArraySchemaFacts(doc, st, id);
    DispatchedChild(doc, SchemaVisitor(), NoOrigins(), st, Prop("schema"), id, Schema(OpenApi30, RootSite),
                    SchemaRoot, ctx, true, false, [(Prop("type"), StrVal("array"))],
                    Prop("items"), Ref(13), Schema(OpenApi30, ItemsSite), [VisitTwice], fuel);
    SharedCategory(doc, entered, fuel - 1);
  }

  /** The `application/json` media type `id`; its start is the default one. */
  lemma SharedMediaType(doc: Document, st: WalkState, id: NodeId, sid: NodeId, fuel: nat)
    requires CategoryShape(doc) && Children(doc, id) == [(Prop("schema"), Ref(sid))]
    requires Children(doc, sid) == ArrayOfCategory && id !in st.visited && fuel >= 5
    ensures var r := Shared(doc, st, Prop("application/json"), id, MediaTypeRules, fuel);
            r.visited == st.visited + {id} + {sid} + {13} + {14} + {15} &&
            PropertyNamesStarted(r.calls) == PropertyNamesStarted(st.calls) + [VisitTwice]
  {
    var key := Prop("application/json");
    var ctx := VisitorCallbackArgument(id, [], false, Field(MediaTypeField, key));
    var entered := WalkState(st.visited + {id}, st.calls + [Start(MediaType, ctx, false)]);
    assert Children(doc, id) == [] + [(Prop("schema"), Ref(sid))];
    MediaTypeFacts(doc, st, id, sid);
    DispatchedChild(doc, SchemaVisitor(), NoOrigins(), st, key, id, MediaTypeRules, MediaType, ctx, false, false, [],
                    Prop("schema"), Ref(sid), Schema(OpenApi30, RootSite), [VisitTwice], fuel);
    SharedArraySchema(doc, entered, sid, fuel - 1);
  }

  /** The structural `content` map `id` of a response. */
  lemma SharedContent(doc: Document, st: WalkState, id: NodeId, mid: NodeId, sid: NodeId, fuel: nat)
    requires CategoryShape(doc) && Children(doc, id) == [(Prop("application/json"), Ref(mid))]
    requires Children(doc, mid) == [(Prop("schema"), Ref(sid))] && Children(doc, sid) == ArrayOfCategory
    requires id !in st.visited && mid !in st.visited && id != mid && fuel >= 6
    ensures var r := Shared(doc, st, Prop("content"), id, MediaTypesRules, fuel);
            r.visited == st.visited + {id} + {mid} + {sid} + {13} + {14} + {15} &&
            PropertyNamesStarted(r.calls) == PropertyNamesStarted(st.calls) + [VisitTwice]
  {
    ContentFacts(doc, mid);
    StructuralChild(doc, SchemaVisitor(), NoOrigins(), st, Prop("content"), id, MediaTypesRules,
                    Prop("application/json"), Ref(mid), MediaTypeRules, fuel);
    SharedMediaType(doc, WalkState(st.visited + {id}, st.calls), mid, sid, fuel - 1);
  }

  /** One response `id` under status `code`; its start is the default one. */
  lemma SharedResponse(doc: Document, st: WalkState, code: Key, id: NodeId, cid: NodeId, mid: NodeId, sid: NodeId,
                       fuel: nat)
    requires CategoryShape(doc) && ResponseShape(doc, id, cid, mid, sid) && code.Prop?
    requires id !in st.visited && cid !in st.visited && mid !in st.visited
    requires id != cid && id != mid && cid != mid && fuel >= 7
    ensures var r := Shared(doc, st, code, id, ResponseRules, fuel);
            r.visited == st.visited + {id} + {cid} + {mid} + {sid} + {13} + {14} + {15} &&
            PropertyNamesStarted(r.calls) == PropertyNamesStarted(st.calls) + [VisitTwice]
  {
    var ctx := VisitorCallbackArgument(id, [], false, Field(ResponseCodeField, code));
    var entered := WalkState(st.visited + {id}, st.calls + [Start(Response, ctx, false)]);
    assert Children(doc, id) == [] + [(Prop("content"), Ref(cid))];
    ResponseFacts(doc, st, code, id, cid);
    DispatchedChild(doc, SchemaVisitor(), NoOrigins(), st, code, id, ResponseRules, Response, ctx, false, false, [],
                    Prop("content"), Ref(cid), MediaTypesRules, [VisitTwice], fuel);
    SharedContent(doc, entered, cid, mid, sid, fuel - 1);
  }

  /** The `200` response leaves the nodes of the `201` response unvisited. */
  lemma SharedFirstResponse(doc: Document, st: WalkState, fuel: nat)
    requires ResponseShape(doc, 5, 7, 9, 11) && CategoryShape(doc)
    requires 5 !in st.visited && 7 !in st.visited && 9 !in st.visited
    requires 6 !in st.visited && 8 !in st.visited && 10 !in st.visited && fuel >= 7
    ensures var r := Shared(doc, st, Prop("200"), 5, ResponseRules, fuel);
            6 !in r.visited && 8 !in r.visited && 10 !in r.visited &&
            13 in r.visited && 14 in r.visited && 15 in r.visited &&
            PropertyNamesStarted(r.calls) == PropertyNamesStarted(st.calls) + [VisitTwice]
  {
    SharedResponse(doc, st, Prop("200"), 5, 7, 9, 11, fuel);
  }

  /** The `responses` map: both responses reach `Category` and its property.
      The `201` response is walked from the state the `200` response left,
      in which `Category`, its `properties` object and the property are
      already visited, and its walk still starts the property once more. */
  lemma SharedResponses(doc: Document, st: WalkState, fuel: nat)
    requires Children(doc, 4) == [(Prop("200"), Ref(5)), (Prop("201"), Ref(6))]
    requires ResponseShape(doc, 5, 7, 9, 11) && ResponseShape(doc, 6, 8, 10, 12) && CategoryShape(doc)
    requires 4 !in st.visited && 5 !in st.visited && 6 !in st.visited && 7 !in st.visited && 8 !in st.visited
    requires 9 !in st.visited && 10 !in st.visited && fuel >= 8
    ensures var first := Shared(doc, WalkState(st.visited + {4}, st.calls), Prop("200"), 5, ResponseRules, fuel - 1);
            var r := Shared(doc, st, Prop("responses"), 4, ResponsesRules, fuel);
            r == Shared(doc, first, Prop("201"), 6, ResponseRules, fuel - 1) &&
            13 in first.visited && 14 in first.visited && 15 in first.visited &&
            PropertyNamesStarted(first.calls) == PropertyNamesStarted(st.calls) + [VisitTwice] &&
            PropertyNamesStarted(r.calls) == PropertyNamesStarted(first.calls) + [VisitTwice]
    ensures var r := Shared(doc, st, Prop("responses"), 4, ResponsesRules, fuel);
            PropertyNamesStarted(r.calls) == PropertyNamesStarted(st.calls) + [VisitTwice, VisitTwice]
  {
    var entered := WalkState(st.visited + {4}, st.calls);
    assert ChildRules(doc, Some(ResponsesRules), Prop("200"), Ref(5)) == Some(ResponseRules);
    assert ChildRules(doc, Some(ResponsesRules), Prop("201"), Ref(6)) == Some(ResponseRules);
    StructuralTwo(doc, SchemaVisitor(), NoOrigins(), st, Prop("responses"), 4, ResponsesRules,
                  Prop("200"), Ref(5), Some(ResponseRules), Prop("201"), Ref(6), Some(ResponseRules), fuel);
    SharedFirstResponse(doc, entered, fuel - 1);
    SharedResponse(doc, Shared(doc, entered, Prop("200"), 5, ResponseRules, fuel - 1), Prop("201"), 6, 8, 10, 12, fuel - 1);
    assert PropertyNamesStarted(entered.calls) + [VisitTwice] + [VisitTwice]
        == PropertyNamesStarted(entered.calls) + [VisitTwice, VisitTwice];
  }

  /** The `get` operation dispatches `httpMethod` with the default start and
      walks its `responses` between its start and its end. */
  lemma OperationStep(doc: Document, st: WalkState, fuel: nat)
    requires Children(doc, 3) == [(Prop("responses"), Ref(4))] && 3 !in st.visited && fuel >= 1
    ensures var start := Start(HttpMethod, VisitorCallbackArgument(3, [], false, Field(MethodField, Prop("get"))), false);
            var d := Shared(doc, WalkState(st.visited + {3}, st.calls + [start]), Prop("responses"), 4, ResponsesRules, fuel - 1);
            var r := Shared(doc, st, Prop("get"), 3, MethodRules, fuel);
            PropertyNamesStarted(d.calls) == PropertyNamesStarted(st.calls + [start]) + [VisitTwice, VisitTwice] ==>
              PropertyNamesStarted(r.calls) == PropertyNamesStarted(st.calls) + [VisitTwice, VisitTwice]
  {
    var ctx := VisitorCallbackArgument(3, [], false, Field(MethodField, Prop("get")));
    assert Children(doc, 3) == [] + [(Prop("responses"), Ref(4))];
    DispatchedChild(doc, SchemaVisitor(), NoOrigins(), st, Prop("get"), 3, MethodRules, HttpMethod, ctx, false, false, [],
                    Prop("responses"), Ref(4), ResponsesRules, [VisitTwice, VisitTwice], fuel);
  }

  /** The `get` operation; its start is the default one. */
  lemma SharedOperation(doc: Document, st: WalkState, fuel: nat)
    requires Children(doc, 3) == [(Prop("responses"), Ref(4))]
    requires Children(doc, 4) == [(Prop("200"), Ref(5)), (Prop("201"), Ref(6))]
    requires ResponseShape(doc, 5, 7, 9, 11) && ResponseShape(doc, 6, 8, 10, 12) && CategoryShape(doc)
    requires 3 !in st.visited && 4 !in st.visited && 5 !in st.visited && 6 !in st.visited && 7 !in st.visited
    requires 8 !in st.visited && 9 !in st.visited && 10 !in st.visited && fuel >= 9
    ensures var r := Shared(doc, st, Prop("get"), 3, MethodRules, fuel);
            PropertyNamesStarted(r.calls) == PropertyNamesStarted(st.calls) + [VisitTwice, VisitTwice]
  {
    var start := Start(HttpMethod, VisitorCallbackArgument(3, [], false, Field(MethodField, Prop("get"))), false);
    OperationStep(doc, st, fuel);
    SharedResponses(doc, WalkState(st.visited + {3}, st.calls + [start]), fuel - 1);
  }

  /** The path item dispatches `path` with the default start and walks its
      `get` operation between its start and its end. */
  lemma PathItemStep(doc: Document, st: WalkState, fuel: nat)
    requires Children(doc, 2) == [(Prop("get"), Ref(3))] && 2 !in st.visited && fuel >= 1
    ensures var key := Prop("/api/v1/test");
            var start := Start(Path, VisitorCallbackArgument(2, [], false, Field(PathField, key)), false);
            var d := Shared(doc, WalkState(st.visited + {2}, st.calls + [start]), Prop("get"), 3, MethodRules, fuel - 1);
            var r := Shared(doc, st, key, 2, PathItem, fuel);
            PropertyNamesStarted(d.calls) == PropertyNamesStarted(st.calls + [start]) + [VisitTwice, VisitTwice] ==>
              PropertyNamesStarted(r.calls) == PropertyNamesStarted(st.calls) + [VisitTwice, VisitTwice]
  {
    var key := Prop("/api/v1/test");
    var ctx := VisitorCallbackArgument(2, [], false, Field(PathField, key));
    assert Children(doc, 2) == [] + [(Prop("get"), Ref(3))];
    assert "get" in HttpMethods;
    DispatchedChild(doc, SchemaVisitor(), NoOrigins(), st, key, 2, PathItem, Path, ctx, false, false, [],
                    Prop("get"), Ref(3), MethodRules, [VisitTwice, VisitTwice], fuel);
  }

  /** The path item `/api/v1/test`; its start is the default one. */
  lemma SharedPathItem(doc: Document, st: WalkState, fuel: nat)
    requires Children(doc, 2) == [(Prop("get"), Ref(3))]
    requires Children(doc, 3) == [(Prop("responses"), Ref(4))]
    requires Children(doc, 4) == [(Prop("200"), Ref(5)), (Prop("201"), Ref(6))]
    requires ResponseShape(doc, 5, 7, 9, 11) && ResponseShape(doc, 6, 8, 10, 12) && CategoryShape(doc)
    requires 2 !in st.visited && 3 !in st.visited && 4 !in st.visited && 5 !in st.visited && 6 !in st.visited
    requires 7 !in st.visited && 8 !in st.visited && 9 !in st.visited && 10 !in st.visited && fuel >= 10
    ensures var r := Shared(doc, st, Prop("/api/v1/test"), 2, PathItem, fuel);
            PropertyNamesStarted(r.calls) == PropertyNamesStarted(st.calls) + [VisitTwice, VisitTwice]
  {
    var start := Start(Path, VisitorCallbackArgument(2, [], false, Field(PathField, Prop("/api/v1/test"))), false);
    PathItemStep(doc, st, fuel);
    SharedOperation(doc, WalkState(st.visited + {2}, st.calls + [start]), fuel - 1);
  }

  /** The structural `/paths` map with its one path item. */
  lemma SharedPaths(doc: Document, st: WalkState, fuel: nat)
    requires Children(doc, 1) == [(Prop("/api/v1/test"), Ref(2))]
    requires Children(doc, 2) == [(Prop("get"), Ref(3))]
    requires Children(doc, 3) == [(Prop("responses"), Ref(4))]
    requires Children(doc, 4) == [(Prop("200"), Ref(5)), (Prop("201"), Ref(6))]
    requires ResponseShape(doc, 5, 7, 9, 11) && ResponseShape(doc, 6, 8, 10, 12) && CategoryShape(doc)
    requires 1 !in st.visited && 2 !in st.visited && 3 !in st.visited && 4 !in st.visited && 5 !in st.visited
    requires 6 !in st.visited && 7 !in st.visited && 8 !in st.visited && 9 !in st.visited && 10 !in st.visited && fuel >= 11
    ensures var r := Shared(doc, st, Prop("paths"), 1, Paths, fuel);
            PropertyNamesStarted(r.calls) == PropertyNamesStarted(st.calls) + [VisitTwice, VisitTwice]
  {
    StructuralChild(doc, SchemaVisitor(), NoOrigins(), st, Prop("paths"), 1, Paths,
                    Prop("/api/v1/test"), Ref(2), PathItem, fuel);
    SharedPathItem(doc, WalkState(st.visited + {1}, st.calls), fuel - 1);
  }

  /** The root is structural: `openapi` is a string and changes nothing,
      `paths` is walked, then `components`, which has no rule. */
  lemma RootStep(doc: Document, fuel: nat)
    requires Children(doc, 0) == [(Prop("openapi"), StrVal("3.0.0")), (Prop("paths"), Ref(1)), (Prop("components"), Ref(16))]
    requires fuel >= 1
    ensures var walked := Shared(doc, WalkState({} + {0}, []), Prop("paths"), 1, Paths, fuel - 1);
            WalkNode(doc, SchemaVisitor(), NoOrigins(), WalkState({}, []), RootKey, Ref(0), Some(ApiRoot), fuel)
            == WalkState(walked.visited + {16}, walked.calls)
  {
    var empty := WalkState({}, []);
    var root := WalkState(empty.visited + {0}, []);
    var opener := ChildRules(doc, Some(ApiRoot), Prop("openapi"), StrVal("3.0.0"));
    assert ChildRules(doc, Some(ApiRoot), Prop("paths"), Ref(1)) == Some(Paths);
    assert ChildRules(doc, Some(ApiRoot), Prop("components"), Ref(16)) == None;
    StructuralThree(doc, SchemaVisitor(), NoOrigins(), empty, RootKey, 0, ApiRoot,
                    Prop("openapi"), StrVal("3.0.0"), opener,
                    Prop("paths"), Ref(1), Some(Paths), Prop("components"), Ref(16), None, fuel);
    PrimitiveIsSkipped(doc, SchemaVisitor(), NoOrigins(), root, Prop("openapi"), StrVal("3.0.0"), opener, fuel - 1);
    UnruledIsRecordedOnly(doc, SchemaVisitor(), NoOrigins(), Shared(doc, root, Prop("paths"), 1, Paths, fuel - 1),
                          Prop("components"), 16, fuel - 1);
  }

  /** The whole walk of a document of this shape from an empty visited set. */
  lemma SharedRoot(doc: Document, fuel: nat)
    requires SharedShape(doc) && fuel >= 12
    ensures var r := WalkNode(doc, SchemaVisitor(), NoOrigins(), WalkState({}, []), RootKey, Ref(0), Some(ApiRoot), fuel);
            PropertyNamesStarted(r.calls) == [VisitTwice, VisitTwice]
  {
    var root := WalkState({} + {0}, []);
    RootStep(doc, fuel);
    SharedPaths(doc, root, fuel - 1);
    assert PropertyNamesStarted([]) + [VisitTwice, VisitTwice] == [VisitTwice, VisitTwice];
  }

  /** `bugs.test.ts`, "shared properties object": walking the whole document
      from an empty visited set, the visitor's `schemaPropertyStart` receives
      `shouldVisitTwice` exactly twice, once under each response, although
      on the second visit every schema node below the media type has been
      visited already; `components` itself dispatches nothing. */
  lemma SharedPropertiesVisitedTwice(fuel: nat)
    requires fuel >= 12
    ensures var r := WalkNode(SharedDoc, SchemaVisitor(), NoOrigins(), WalkState({}, []),
                              RootKey, Ref(0), Some(ApiRoot), fuel);
            PropertyNamesStarted(r.calls) == [VisitTwice, VisitTwice]
  {
    SharedDocShape();
    SharedRoot(SharedDoc, fuel);
  }
}
