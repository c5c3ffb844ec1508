/** The data model of the visitor: dispatch kinds, the rule record the hook
    reads, the argument every callback receives, the partial visitor with its
    twelve start/end pairs, the walk options and the two exported constants. */
module OpenApiTypes {
  import opened Wrappers
  import opened JsonGraph

  /** The twelve construct kinds a rule can dispatch (`visitorMethodBase`). */
  datatype DispatchKind =
    | Path | HttpMethod | Parameter | RequestBody | Response | MediaType
    | SchemaRoot | SchemaProperty | SchemaItems | Combiner | CombinerItem | Header
  {
    /** The base the visitor's method names are built from. */
    function MethodBase(): string {
      match this
      case Path => "path"
      case HttpMethod => "httpMethod"
      case Parameter => "parameter"
      case RequestBody => "requestBody"
      case Response => "response"
      case MediaType => "mediaType"
      case SchemaRoot => "schemaRoot"
      case SchemaProperty => "schemaProperty"
      case SchemaItems => "schemaItems"
      case Combiner => "combiner"
      case CombinerItem => "combinerItem"
      case Header => "header"
    }
  }

  /** The twelve bases are distinct, so the names built from them never
      collide: each kind looks up its own start and end function. */
  lemma MethodBaseInjective(a: DispatchKind, b: DispatchKind)
    ensures a.MethodBase() == b.MethodBase() <==> a == b
  {
  }

  /** `CombinerType`: the three JSON Schema composition keywords. */
  datatype CombinerType = AnyOf | OneOf | AllOf {
    function Keyword(): string {
      match this
      case AnyOf => "anyOf"
      case OneOf => "oneOf"
      case AllOf => "allOf"
    }
  }

  /** Reads a composition keyword back: exactly the three keywords parse. */
  function ParseCombinerType(s: string): (r: Option<CombinerType>)
    ensures r.Some? <==> (s == "anyOf" || s == "oneOf" || s == "allOf")
    ensures r.Some? ==> r.value.Keyword() == s
  {
    if s == "anyOf" then Some(AnyOf)
    else if s == "oneOf" then Some(OneOf)
    else if s == "allOf" then Some(AllOf)
    else None
  }

  /** An opaque hop of the `$ref` chain that led to a value. */
  datatype ChainItem = ChainItem(hops: seq<Key>)

  /** The construct-specific field names a context builder may add. */
  datatype FieldName =
    | PathField | MethodField | ResponseCodeField | MediaTypeField
    | HeaderField | PropertyNameField | CombinerTypeField | CombinerItemIndexField
  {
    function Name(): string {
      match this
      case PathField => "path"
      case MethodField => "method"
      case ResponseCodeField => "responseCode"
      case MediaTypeField => "mediaType"
      case HeaderField => "header"
      case PropertyNameField => "propertyName"
      case CombinerTypeField => "combinerType"
      case CombinerItemIndexField => "combinerItemIndex"
    }
  }

  /** The kind-specific part of a callback argument: nothing, or one named field. */
  datatype ContextField = NoField | Field(name: FieldName, content: Key)

  /** `VisitorCallbackArgument`: every argument carries the value, its
      declaration paths and the already-visited flag, plus the kind's field. */
  datatype VisitorCallbackArgument = VisitorCallbackArgument(
    value: NodeId,
    declarationPaths: seq<ChainItem>,
    valueAlreadyVisited: bool,
    extra: ContextField)

  /** The closed set of `createContext` functions the rule tree uses: only
      the generic fields, the crawl key stored under a field name, or the
      additional-properties alias stored as the property name. */
  datatype ContextBuilder = GenericContext | KeyAs(field: FieldName) | AdditionalPropertiesContext

  /** `VisitorCrawlRule`: the dispatch metadata of one rule-tree node. All
      three members are optional; a missing `passthrough` reads as false. */
  datatype VisitorCrawlRule = VisitorCrawlRule(
    createContext: Option<ContextBuilder>,
    visitorMethodBase: Option<DispatchKind>,
    passthrough: bool)
  {
    /** The hook dispatches only when both the builder and the base are present. */
    predicate Dispatches() {
      createContext.Some? && visitorMethodBase.Some?
    }
  }

  /** Start callbacks answer "go deeper"; end callbacks return nothing. */
  type StartFn = VisitorCallbackArgument -> bool
  type EndFn = VisitorCallbackArgument -> ()

  /** `OpenApiPathVisitor`: a partial visitor, every one of the twelve
      start/end pairs may be absent. */
  datatype OpenApiPathVisitor = OpenApiPathVisitor(
    pathStart: Option<StartFn>, pathEnd: Option<EndFn>,
    httpMethodStart: Option<StartFn>, httpMethodEnd: Option<EndFn>,
    parameterStart: Option<StartFn>, parameterEnd: Option<EndFn>,
    requestBodyStart: Option<StartFn>, requestBodyEnd: Option<EndFn>,
    responseStart: Option<StartFn>, responseEnd: Option<EndFn>,
    mediaTypeStart: Option<StartFn>, mediaTypeEnd: Option<EndFn>,
    schemaRootStart: Option<StartFn>, schemaRootEnd: Option<EndFn>,
    schemaPropertyStart: Option<StartFn>, schemaPropertyEnd: Option<EndFn>,
    schemaItemsStart: Option<StartFn>, schemaItemsEnd: Option<EndFn>,
    combinerStart: Option<StartFn>, combinerEnd: Option<EndFn>,
    combinerItemStart: Option<StartFn>, combinerItemEnd: Option<EndFn>,
    headerStart: Option<StartFn>, headerEnd: Option<EndFn>)
  {
    /** `visitor[kind.MethodBase() + 'Start']`. */
    function StartOf(kind: DispatchKind): Option<StartFn> {
      match kind
      case Path => pathStart
      case HttpMethod => httpMethodStart
      case Parameter => parameterStart
      case RequestBody => requestBodyStart
      case Response => responseStart
      case MediaType => mediaTypeStart
      case SchemaRoot => schemaRootStart
      case SchemaProperty => schemaPropertyStart
      case SchemaItems => schemaItemsStart
      case Combiner => combinerStart
      case CombinerItem => combinerItemStart
      case Header => headerStart
    }

    /** `visitor[kind.MethodBase() + 'End']`. */
    function EndOf(kind: DispatchKind): Option<EndFn> {
      match kind
      case Path => pathEnd
      case HttpMethod => httpMethodEnd
      case Parameter => parameterEnd
      case RequestBody => requestBodyEnd
      case Response => responseEnd
      case MediaType => mediaTypeEnd
      case SchemaRoot => schemaRootEnd
      case SchemaProperty => schemaPropertyEnd
      case SchemaItems => schemaItemsEnd
      case Combiner => combinerEnd
      case CombinerItem => combinerItemEnd
      case Header => headerEnd
    }
  }

  /** The visitor that supplies no callback at all. */
  const EmptyVisitor: OpenApiPathVisitor :=
    OpenApiPathVisitor(None, None, None, None, None, None, None, None, None, None, None, None,
                       None, None, None, None, None, None, None, None, None, None, None, None)

  /** `VisitorOptions` together with the normalizer options `walkPaths`
      accepts: the origins key, `validate` and `resolveRef`. */
  datatype NormalizeOptions = NormalizeOptions(
    originsFlag: Member<Symbol>,
    validate: Member<bool>,
    resolveRef: Member<bool>)

  /** `VisitorOptions`: only the origins key. */
  datatype VisitorOptions = VisitorOptions(originsFlag: Member<Symbol>)

  /** `InternalVisitorOptions`: the origins key after defaulting. */
  datatype InternalVisitorOptions = InternalVisitorOptions(originsFlag: Member<Symbol>)

  /** `DEFAULT_OPTION_ORIGINS_META_KEY`: the library's private `$origins` symbol. */
  const DefaultOptionOriginsMetaKey: Symbol := OriginsMetaKey

  /** `PROPERTY_ALIAS_ADDITIONAL_PROPERTIES`. */
  const PropertyAliasAdditionalProperties: string := "*"
}
