/** The declarative rule tree. Each constructor of `CrawlRules` stands for one
    rule object of the tree; `Lookup` is how the crawler moves from a rule to
    the rule of a child key (a literal segment first, then the
    wildcard, evaluating value-dependent rules on the child's value), and
    `RuleOf` is the dispatch metadata the hook reads. The schema rules refer
    back to themselves through `self`; here a schema position's children are
    again schema positions of the same flavour, so no cyclic value is needed. */
module OpenApiRules {
  import opened Wrappers
  import opened JsonGraph
  import opened OpenApiTypes

  /** Which schema rule set `self` points to: the generic `jsonSchemaRules()`
      or the OpenAPI 3.0 set built by `customFor30JsonSchemaRulesFactory`. */
  datatype Flavor = JsonSchema | OpenApi30

  /** Where a schema was reached from; decides its dispatch kind and context. */
  datatype SchemaSite =
    | RootSite                   // the rule set itself, e.g. under `/schema`
    | ItemsSite                  // `/items` (not the tuple form)
    | AdditionalItemsSite        // object-valued `/additionalItems`
    | PropertySite               // `/properties/*`, `/patternProperties/*`
    | AdditionalPropertiesSite   // object-valued `/additionalProperties`
    | CombinerItemSite           // `/oneOf/*`, `/anyOf/*`, `/allOf/*`

  /** The rule objects of the tree. */
  datatype CrawlRules =
    | ApiRoot            // openApiRules
    | Paths              // its '/paths'
    | PathItem           // '/paths/*'
    | MethodRules        // openApiMethodRules
    | ParametersRules    // openApiParametersRules
    | ParameterRules     // openApiParameterRules
    | RequestRules       // openApiRequestRules
    | ResponsesRules     // openApiResponsesRules
    | ResponseRules      // openApiResponseRules
    | HeadersRules       // openApiHeadersRules
    | HeaderRules        // openApiHeaderRules
    | MediaTypesRules    // openApiMediaTypesRules
    | MediaTypeRules     // its '/*'
    | Schema(flavor: Flavor, site: SchemaSite)
    | TupleItems(flavor: Flavor)      // generic '/items' on an array: { '/*': self }
    | PropertiesMap(flavor: Flavor)   // '/properties', '/patternProperties' containers
    | CombinerRules(flavor: Flavor)   // '/oneOf', '/anyOf', '/allOf'
    | EmptyRules                      // {} for a boolean additionalProperties/additionalItems

  /** The eight operation keys of a path item. */
  const HttpMethods: seq<string> := ["get", "post", "put", "delete", "patch", "options", "head", "trace"]

  function Structural(): VisitorCrawlRule {
    VisitorCrawlRule(None, None, false)
  }

  function Dispatching(kind: DispatchKind, builder: ContextBuilder): VisitorCrawlRule {
    VisitorCrawlRule(Some(builder), Some(kind), false)
  }

  /** The `visitorMethodBase`, `createContext` and `passthrough` members of
      each rule object. Every rule carries builder and base together or
      neither, and a passthrough rule never dispatches. */
  function RuleOf(rules: CrawlRules): (rule: VisitorCrawlRule)
    ensures rule.createContext.Some? <==> rule.visitorMethodBase.Some?
    ensures rule.passthrough ==> !rule.Dispatches()
    ensures rule.passthrough <==> rules.PropertiesMap?
  {
    match rules
    case ApiRoot | Paths | ParametersRules | ResponsesRules | HeadersRules | MediaTypesRules
       | TupleItems(_) | EmptyRules => Structural()
    case PropertiesMap(_) => VisitorCrawlRule(None, None, true)
    case PathItem => Dispatching(Path, KeyAs(PathField))
    case MethodRules => Dispatching(HttpMethod, KeyAs(MethodField))
    case ParameterRules => Dispatching(Parameter, KeyAs(MethodField))
    case RequestRules => Dispatching(RequestBody, GenericContext)
    case ResponseRules => Dispatching(Response, KeyAs(ResponseCodeField))
    case HeaderRules => Dispatching(Header, KeyAs(HeaderField))
    case MediaTypeRules => Dispatching(MediaType, KeyAs(MediaTypeField))
    case CombinerRules(_) => Dispatching(Combiner, KeyAs(CombinerTypeField))
    case Schema(_, site) =>
      match site
      case RootSite => Dispatching(SchemaRoot, GenericContext)
      case ItemsSite | AdditionalItemsSite => Dispatching(SchemaItems, GenericContext)
      case PropertySite => Dispatching(SchemaProperty, KeyAs(PropertyNameField))
      case AdditionalPropertiesSite => Dispatching(SchemaProperty, AdditionalPropertiesContext)
      case CombinerItemSite => Dispatching(CombinerItem, KeyAs(CombinerItemIndexField))
  }

  /** Runs a `createContext` function on `(key, value, declarationPaths,
      alreadyVisited)`: the generic fields are always copied from the
      arguments, and the kind-specific field is the key, the alias, or absent. */
  function CreateContext(builder: ContextBuilder, key: Key, value: NodeId,
                         declarationPaths: seq<ChainItem>, valueAlreadyVisited: bool): (ctx: VisitorCallbackArgument)
    ensures ctx.value == value && ctx.declarationPaths == declarationPaths
    ensures ctx.valueAlreadyVisited == valueAlreadyVisited
    ensures ctx.extra.NoField? <==> builder.GenericContext?
    ensures builder.KeyAs? ==> ctx.extra == Field(builder.field, key)
    ensures builder.AdditionalPropertiesContext? ==>
              ctx.extra == Field(PropertyNameField, Prop(PropertyAliasAdditionalProperties))
  {
    var extra :=
      match builder
      case GenericContext => NoField
      case KeyAs(field) => Field(field, key)
      case AdditionalPropertiesContext => Field(PropertyNameField, Prop(PropertyAliasAdditionalProperties));
    VisitorCallbackArgument(value, declarationPaths, valueAlreadyVisited, extra)
  }

  /** The wildcard member of a rule object, if it has one. */
  function Wildcard(rules: CrawlRules): Option<CrawlRules> {
    match rules
    case Paths => Some(PathItem)
    case ParametersRules => Some(ParameterRules)
    case ResponsesRules => Some(ResponseRules)
    case HeadersRules => Some(HeaderRules)
    case MediaTypesRules => Some(MediaTypeRules)
    case TupleItems(f) => Some(Schema(f, RootSite))
    case PropertiesMap(f) => Some(Schema(f, PropertySite))
    case CombinerRules(f) => Some(Schema(f, CombinerItemSite))
    case _ => None
  }

  /** The generic `'/items'` rule: an array value is a tuple whose elements
      are whole schemas; any other value is one items schema. */
  function JsonSchemaItems(doc: Document, value: Value): CrawlRules {
    if IsArray(doc, value) then TupleItems(JsonSchema) else Schema(JsonSchema, ItemsSite)
  }

  /** The literal members of a schema rule object, in flavour `f`. */
  function SchemaMember(doc: Document, f: Flavor, name: string, value: Value): Option<CrawlRules> {
    if name == "items" then
      // the 3.0 factory replaces '/items' by an unconditional schemaItems rule
      Some(if f == OpenApi30 then Schema(OpenApi30, ItemsSite) else JsonSchemaItems(doc, value))
    else if name == "additionalItems" then
      Some(if IsBoolean(value) then EmptyRules else Schema(f, AdditionalItemsSite))
    else if name == "properties" || name == "patternProperties" then
      Some(PropertiesMap(f))
    else if name == "additionalProperties" then
      Some(if IsBoolean(value) then EmptyRules else Schema(f, AdditionalPropertiesSite))
    else if name == "oneOf" || name == "anyOf" || name == "allOf" then
      Some(CombinerRules(f))
    else
      None  // in particular '/not' and '/definitions' are not part of the tree
  }

  /** The literal (non-wildcard) members of a rule object. */
  function Literal(doc: Document, rules: CrawlRules, name: string, value: Value): Option<CrawlRules> {
    match rules
    case ApiRoot => if name == "paths" then Some(Paths) else None
    case PathItem =>
      if name in HttpMethods then Some(MethodRules)
      else if name == "parameters" then Some(ParametersRules)
      else None
    case MethodRules =>
      if name == "parameters" then Some(ParametersRules)
      else if name == "requestBody" then Some(RequestRules)
      else if name == "responses" then Some(ResponsesRules)
      else None
    case ParameterRules => if name == "schema" then Some(Schema(OpenApi30, RootSite)) else None
    case RequestRules => if name == "content" then Some(MediaTypesRules) else None
    case ResponseRules =>
      if name == "headers" then Some(HeadersRules)
      else if name == "content" then Some(MediaTypesRules)
      else None
    case HeaderRules => if name == "schema" then Some(Schema(OpenApi30, RootSite)) else None
    case MediaTypeRules => if name == "schema" then Some(Schema(OpenApi30, RootSite)) else None
    case Schema(f, _) => SchemaMember(doc, f, name, value)
    case _ => None
  }

  /** The rule of child `key` with value `value` below `rules`: the literal
      segment `'/' + key` if the rule object has it, else its wildcard. An
      array index never equals a literal segment of the tree. */
  function Lookup(doc: Document, rules: CrawlRules, key: Key, value: Value): (r: Option<CrawlRules>)
    ensures key.SymbolKey? ==> r.None?
    ensures key.Index? ==> r == Wildcard(rules)
    ensures r != Some(ApiRoot)
  {
    match key
    case SymbolKey(_) => None
    case Index(_) => Wildcard(rules)
    case Prop(name) =>
      var lit := Literal(doc, rules, name, value);
      if lit.Some? then lit else Wildcard(rules)
  }

  /** The crawler's rule for a child when the parent may have no rule. */
  function ChildRules(doc: Document, parent: Option<CrawlRules>, key: Key, value: Value): (r: Option<CrawlRules>)
    ensures parent.None? ==> r.None?
  {
    if parent.None? then None else Lookup(doc, parent.value, key, value)
  }

  // ---------------------------------------------------------------------
  // The path and operation part of the tree
  // ---------------------------------------------------------------------

  /** The document root and `/paths` are structural: no dispatch, no passthrough. */
  lemma RootAndPathsAreStructural()
    ensures !RuleOf(ApiRoot).Dispatches() && !RuleOf(ApiRoot).passthrough
    ensures !RuleOf(Paths).Dispatches() && !RuleOf(Paths).passthrough
    ensures forall doc: Document, k: Key, v: Value ::
              Lookup(doc, ApiRoot, k, v).Some? <==> k == Prop("paths")
  {
  }

  /** Every entry of `/paths` dispatches `path` with the entry's key as `path`. */
  lemma PathEntryDispatchesPath(doc: Document, key: Key, value: Value, id: NodeId,
                                paths: seq<ChainItem>, visited: bool)
    requires !key.SymbolKey?
    ensures Lookup(doc, Paths, key, value) == Some(PathItem)
    ensures RuleOf(PathItem).visitorMethodBase == Some(Path)
    ensures CreateContext(RuleOf(PathItem).createContext.value, key, id, paths, visited).extra
            == Field(PathField, key)
  {
  }

  /** A path item's children: the eight methods all share the one operation
      rule, `parameters` is the parameter list, and nothing else matches. */
  lemma PathItemChildren(doc: Document, name: string, value: Value)
    ensures Lookup(doc, PathItem, Prop(name), value) == Some(MethodRules) <==> name in HttpMethods
    ensures Lookup(doc, PathItem, Prop(name), value) == Some(ParametersRules) <==> name == "parameters"
    ensures Lookup(doc, PathItem, Prop(name), value).Some? <==> name in HttpMethods || name == "parameters"
  {
  }

  /** An operation dispatches `httpMethod` with the key as `method`, and its
      only children are `parameters`, `requestBody` and `responses`. */
  lemma OperationRule(doc: Document, key: Key, value: Value, id: NodeId, paths: seq<ChainItem>, visited: bool)
    ensures RuleOf(MethodRules).visitorMethodBase == Some(HttpMethod)
    ensures CreateContext(RuleOf(MethodRules).createContext.value, key, id, paths, visited).extra
            == Field(MethodField, key)
    ensures Lookup(doc, MethodRules, key, value).Some? <==>
              key in {Prop("parameters"), Prop("requestBody"), Prop("responses")}
    ensures Lookup(doc, MethodRules, Prop("parameters"), value) == Some(ParametersRules)
    ensures Lookup(doc, MethodRules, Prop("requestBody"), value) == Some(RequestRules)
    ensures Lookup(doc, MethodRules, Prop("responses"), value) == Some(ResponsesRules)
  {
  }

  /** Each parameter dispatches `parameter` with its list index stored under
      the field named `method`, and recurses only into `/schema`, which is a
      schema root. */
  lemma ParameterRule(doc: Document, i: nat, key: Key, value: Value, id: NodeId, paths: seq<ChainItem>, visited: bool)
    ensures Lookup(doc, ParametersRules, Index(i), value) == Some(ParameterRules)
    ensures RuleOf(ParameterRules).visitorMethodBase == Some(Parameter)
    ensures CreateContext(RuleOf(ParameterRules).createContext.value, Index(i), id, paths, visited).extra
            == Field(MethodField, Index(i))
    ensures MethodField.Name() == "method"
    ensures Lookup(doc, ParameterRules, key, value).Some? <==> key == Prop("schema")
    ensures Lookup(doc, ParameterRules, Prop("schema"), value) == Some(Schema(OpenApi30, RootSite))
  {
  }

  /** `requestBody` dispatches with only the generic fields and recurses only into `/content`. */
  lemma RequestBodyRule(doc: Document, key: Key, value: Value)
    ensures RuleOf(RequestRules) == Dispatching(RequestBody, GenericContext)
    ensures Lookup(doc, RequestRules, key, value).Some? <==> key == Prop("content")
    ensures Lookup(doc, RequestRules, Prop("content"), value) == Some(MediaTypesRules)
  {
  }

  /** Responses: each entry dispatches `response` with the key as
      `responseCode` and recurses into `/headers` and `/content` only. */
  lemma ResponseRule(doc: Document, code: Key, key: Key, value: Value, id: NodeId, paths: seq<ChainItem>, visited: bool)
    requires !code.SymbolKey?
    ensures Lookup(doc, ResponsesRules, code, value) == Some(ResponseRules)
    ensures RuleOf(ResponseRules).visitorMethodBase == Some(Response)
    ensures CreateContext(RuleOf(ResponseRules).createContext.value, code, id, paths, visited).extra
            == Field(ResponseCodeField, code)
    ensures Lookup(doc, ResponseRules, key, value).Some? <==> key in {Prop("headers"), Prop("content")}
    ensures Lookup(doc, ResponseRules, Prop("headers"), value) == Some(HeadersRules)
    ensures Lookup(doc, ResponseRules, Prop("content"), value) == Some(MediaTypesRules)
  {
  }

  /** Media types and headers: the key becomes `mediaType` or `header`, and
      the only child is `/schema`, a schema root with the generic fields only. */
  lemma MediaTypeAndHeaderRules(doc: Document, key: Key, child: Key, value: Value, id: NodeId,
                                paths: seq<ChainItem>, visited: bool)
    requires !key.SymbolKey?
    ensures Lookup(doc, MediaTypesRules, key, value) == Some(MediaTypeRules)
    ensures CreateContext(RuleOf(MediaTypeRules).createContext.value, key, id, paths, visited).extra
            == Field(MediaTypeField, key)
    ensures Lookup(doc, HeadersRules, key, value) == Some(HeaderRules)
    ensures CreateContext(RuleOf(HeaderRules).createContext.value, key, id, paths, visited).extra
            == Field(HeaderField, key)
    ensures RuleOf(MediaTypeRules).visitorMethodBase == Some(MediaType)
    ensures RuleOf(HeaderRules).visitorMethodBase == Some(Header)
    ensures Lookup(doc, MediaTypeRules, child, value).Some? <==> child == Prop("schema")
    ensures Lookup(doc, HeaderRules, child, value).Some? <==> child == Prop("schema")
    ensures Lookup(doc, MediaTypeRules, Prop("schema"), value) == Some(Schema(OpenApi30, RootSite))
    ensures Lookup(doc, HeaderRules, Prop("schema"), value) == Some(Schema(OpenApi30, RootSite))
    ensures RuleOf(Schema(OpenApi30, RootSite)) == Dispatching(SchemaRoot, GenericContext)
  {
  }

  // ---------------------------------------------------------------------
  // The schema part of the tree
  // ---------------------------------------------------------------------

  /** Every schema position has the same children as the schema root of its
      flavour: the sites differ only in what they dispatch. */
  lemma SchemaSitesShareChildren(doc: Document, f: Flavor, s: SchemaSite, key: Key, value: Value)
    ensures Lookup(doc, Schema(f, s), key, value) == Lookup(doc, Schema(f, RootSite), key, value)
  {
  }

  /** `/properties` and `/patternProperties` are passthrough containers that
      never dispatch; each of their entries dispatches `schemaProperty` with
      the entry's key as `propertyName`. */
  lemma PropertiesContainers(doc: Document, f: Flavor, s: SchemaSite, key: Key, value: Value,
                             id: NodeId, paths: seq<ChainItem>, visited: bool)
    requires !key.SymbolKey?
    ensures Lookup(doc, Schema(f, s), Prop("properties"), value) == Some(PropertiesMap(f))
    ensures Lookup(doc, Schema(f, s), Prop("patternProperties"), value) == Some(PropertiesMap(f))
    ensures RuleOf(PropertiesMap(f)).passthrough && !RuleOf(PropertiesMap(f)).Dispatches()
    ensures Lookup(doc, PropertiesMap(f), key, value) == Some(Schema(f, PropertySite))
    ensures RuleOf(Schema(f, PropertySite)).visitorMethodBase == Some(SchemaProperty)
    ensures CreateContext(RuleOf(Schema(f, PropertySite)).createContext.value, key, id, paths, visited).extra
            == Field(PropertyNameField, key)
  {
  }

  /** A boolean `additionalProperties` / `additionalItems` gets the empty
      rule; any other value dispatches `schemaProperty` under the alias
      property name, respectively `schemaItems`. */
  lemma AdditionalMembers(doc: Document, f: Flavor, s: SchemaSite, value: Value,
                          id: NodeId, paths: seq<ChainItem>, visited: bool)
    ensures IsBoolean(value) ==> Lookup(doc, Schema(f, s), Prop("additionalProperties"), value) == Some(EmptyRules)
    ensures IsBoolean(value) ==> Lookup(doc, Schema(f, s), Prop("additionalItems"), value) == Some(EmptyRules)
    ensures !IsBoolean(value) ==>
              Lookup(doc, Schema(f, s), Prop("additionalProperties"), value) == Some(Schema(f, AdditionalPropertiesSite))
    ensures !IsBoolean(value) ==>
              Lookup(doc, Schema(f, s), Prop("additionalItems"), value) == Some(Schema(f, AdditionalItemsSite))
    ensures RuleOf(EmptyRules) == Structural()
    ensures RuleOf(Schema(f, AdditionalPropertiesSite)).visitorMethodBase == Some(SchemaProperty)
    ensures CreateContext(RuleOf(Schema(f, AdditionalPropertiesSite)).createContext.value,
                          Prop("additionalProperties"), id, paths, visited).extra
            == Field(PropertyNameField, Prop("*"))
    ensures RuleOf(Schema(f, AdditionalItemsSite)) == Dispatching(SchemaItems, GenericContext)
  {
  }

  /** The alias is the literal `'*'`: the context of an additionalProperties
      schema equals that of a real property named `'*'`, so a callback
      cannot tell the two apart by `propertyName`. */
  lemma AliasCollidesWithStarProperty(doc: Document, f: Flavor, id: NodeId, paths: seq<ChainItem>, visited: bool)
    ensures CreateContext(RuleOf(Schema(f, AdditionalPropertiesSite)).createContext.value,
                          Prop("additionalProperties"), id, paths, visited)
         == CreateContext(RuleOf(Lookup(doc, PropertiesMap(f), Prop("*"), Ref(id)).value).createContext.value,
                          Prop("*"), id, paths, visited)
  {
  }

  /** `/oneOf`, `/anyOf`, `/allOf` dispatch `combiner` with the keyword as
      `combinerType`. */
  lemma CombinerDispatch(doc: Document, f: Flavor, s: SchemaSite, c: CombinerType, value: Value,
                         id: NodeId, paths: seq<ChainItem>, visited: bool)
    ensures Lookup(doc, Schema(f, s), Prop(c.Keyword()), value) == Some(CombinerRules(f))
    ensures RuleOf(CombinerRules(f)).visitorMethodBase == Some(Combiner)
    ensures CreateContext(RuleOf(CombinerRules(f)).createContext.value, Prop(c.Keyword()), id, paths, visited).extra
            == Field(CombinerTypeField, Prop(c.Keyword()))
  {
  }

  /** `/not` and `/definitions` are not part of a schema's rule object, and a
      schema has no wildcard, so neither is recursed into. */
  lemma NotAndDefinitionsSkipped(doc: Document, f: Flavor, s: SchemaSite, value: Value)
    ensures Lookup(doc, Schema(f, s), Prop("not"), value).None?
    ensures Lookup(doc, Schema(f, s), Prop("definitions"), value).None?
  {
  }

  /** Each element of a combiner dispatches `combinerItem` with its index as
      `combinerItemIndex`, and has the full children of a schema. */
  lemma CombinerItemDispatch(doc: Document, f: Flavor, i: nat, key: Key, value: Value,
                             id: NodeId, paths: seq<ChainItem>, visited: bool)
    ensures Lookup(doc, CombinerRules(f), Index(i), value) == Some(Schema(f, CombinerItemSite))
    ensures RuleOf(Schema(f, CombinerItemSite)).visitorMethodBase == Some(CombinerItem)
    ensures CreateContext(RuleOf(Schema(f, CombinerItemSite)).createContext.value, Index(i), id, paths, visited).extra
            == Field(CombinerItemIndexField, Index(i))
    ensures Lookup(doc, Schema(f, CombinerItemSite), key, value) == Lookup(doc, Schema(f, RootSite), key, value)
  {
  }

  /** A combiner rule is only ever reached under one of the three keywords,
      so its `combinerType` field always reads back as a `CombinerType`. */
  lemma CombinerTypeIsKeyword(doc: Document, parent: CrawlRules, key: Key, value: Value, f: Flavor)
    requires Lookup(doc, parent, key, value) == Some(CombinerRules(f))
    ensures key.Prop? && ParseCombinerType(key.name).Some?
  {
  }

  /** In the 3.0 set `/items` always dispatches `schemaItems`, array or not;
      the generic set treats an array as a tuple of whole schemas. */
  lemma ItemsOverride(doc: Document, s: SchemaSite, value: Value)
    ensures Lookup(doc, Schema(OpenApi30, s), Prop("items"), value) == Some(Schema(OpenApi30, ItemsSite))
    ensures RuleOf(Schema(OpenApi30, ItemsSite)) == Dispatching(SchemaItems, GenericContext)
    ensures IsArray(doc, value) ==>
              Lookup(doc, Schema(JsonSchema, s), Prop("items"), value) == Some(TupleItems(JsonSchema))
    ensures !IsArray(doc, value) ==>
              Lookup(doc, Schema(JsonSchema, s), Prop("items"), value) == Some(Schema(JsonSchema, ItemsSite))
    ensures forall i: nat :: Lookup(doc, TupleItems(JsonSchema), Index(i), value) == Some(Schema(JsonSchema, RootSite))
  {
  }

  // ---------------------------------------------------------------------
  // Rules reachable from the document root
  // ---------------------------------------------------------------------

  /** Follows the crawler from `rules` along a sequence of (key, value) steps. */
  function LookupPath(doc: Document, rules: CrawlRules, steps: seq<(Key, Value)>): Option<CrawlRules>
    decreases |steps|
  {
    if steps == [] then Some(rules)
    else
      match Lookup(doc, rules, steps[0].0, steps[0].1)
      case None => None
      case Some(next) => LookupPath(doc, next, steps[1..])
  }

  /** Rules of the OpenAPI 3.0 tree: no generic schema flavour, no tuple form. */
  predicate InOpenApi30Tree(rules: CrawlRules) {
    match rules
    case Schema(f, _) => f == OpenApi30
    case TupleItems(_) => false
    case PropertiesMap(f) => f == OpenApi30
    case CombinerRules(f) => f == OpenApi30
    case _ => true
  }

  lemma LookupStaysInOpenApi30Tree(doc: Document, rules: CrawlRules, key: Key, value: Value)
    requires InOpenApi30Tree(rules)
    ensures Lookup(doc, rules, key, value).Some? ==> InOpenApi30Tree(Lookup(doc, rules, key, value).value)
  {
  }

  /** Every rule the crawler reaches from `openApiRules` belongs to the 3.0
      set: all schema recursion goes through `self` into the 3.0 rules, and
      the generic tuple form of `/items` is never used. */
  lemma {:induction false} ReachableRulesAreOpenApi30(doc: Document, rules: CrawlRules, steps: seq<(Key, Value)>)
    requires InOpenApi30Tree(rules)
    ensures LookupPath(doc, rules, steps).Some? ==> InOpenApi30Tree(LookupPath(doc, rules, steps).value)
    decreases |steps|
  {
    if steps != [] {
      LookupStaysInOpenApi30Tree(doc, rules, steps[0].0, steps[0].1);
      var next := Lookup(doc, rules, steps[0].0, steps[0].1);
      if next.Some? {
        ReachableRulesAreOpenApi30(doc, next.value, steps[1..]);
      }
    }
  }

  /** Schema positions only lead to schema positions: from a schema the
      crawler never gets back to the path and operation part of the tree. */
  predicate InSchemaFamily(rules: CrawlRules) {
    rules.Schema? || rules.TupleItems? || rules.PropertiesMap? || rules.CombinerRules? || rules.EmptyRules?
  }

  lemma {:induction false} SchemaFamilyClosed(doc: Document, rules: CrawlRules, steps: seq<(Key, Value)>)
    requires InSchemaFamily(rules)
    ensures LookupPath(doc, rules, steps).Some? ==> InSchemaFamily(LookupPath(doc, rules, steps).value)
    decreases |steps|
  {
    if steps != [] {
      var next := Lookup(doc, rules, steps[0].0, steps[0].1);
      if next.Some? {
        SchemaFamilyClosed(doc, next.value, steps[1..]);
      }
    }
  }
}
