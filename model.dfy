/**
 * The values the context resolver works on: `AnyCodable` context values,
 * contents with their type definitions, queries, pipelines and the results a
 * render produces. The collaborators whose code is not part of this model
 * (the query engine, scope lookup, date formatting, Markdown rendering,
 * asset handling, the JSON and Mustache renderers) are the function-valued
 * fields of `Collaborators`.
 */
module Model {
  import opened Wrappers

  /** `AnyCodable`. A `Double` is a `Number`; timestamps are whole seconds. */
  datatype Value =
    | Null
    | Bool(b: bool)
    | Int(i: int)
    | Number(n: int)
    | Str(s: string)
    | Arr(items: seq<Value>)
    | Obj(fields: map<string, Value>)

  /** `[String: AnyCodable]` */
  type Context = map<string, Value>

  /**
   * `recursivelyMerged(with:)` as a right-biased union. Most merges the
   * renderer performs are between mappings with disjoint keys or into an
   * empty mapping, where any merge gives this result; `getSiteContext` is
   * the exception, where a user-defined key can share a built-in key's name
   * and nested mappings under it are not merged recursively here.
   */
  function Merge(a: Context, b: Context): (r: Context)
    ensures r.Keys == a.Keys + b.Keys
    ensures forall k :: k in a && k !in b ==> r[k] == a[k]
    ensures forall k :: k in b ==> r[k] == b[k]
  {
    a + b
  }

  /** `dict(key)`: the nested mapping under `key`, or an empty one. */
  function Dict(ctx: Context, key: string): (r: Context)
    ensures key in ctx && ctx[key].Obj? ==> r == ctx[key].fields
    ensures !(key in ctx && ctx[key].Obj?) ==> r == map[]
  {
    if key in ctx && ctx[key].Obj? then ctx[key].fields else map[]
  }

  /** `string(key)`: the string under `key`, if there is one. */
  function StringAt(ctx: Context, key: string): (r: Option<string>)
    ensures r.Some? <==> key in ctx && ctx[key].Str?
    ensures r.Some? ==> ctx[key] == Str(r.value)
  {
    if key in ctx && ctx[key].Str? then Some(ctx[key].s) else None
  }

  // ---------------------------------------------------------------------
  // Content types and queries

  datatype PropertyType = BoolType | IntType | DoubleType | StringType | DateType(format: Option<string>) | OtherType

  datatype Direction = Asc | Desc

  datatype Order = Order(key: string, direction: Direction)

  datatype Operator = Equals | NotEquals | LessThan | LessThanOrEquals | GreaterThan | GreaterThanOrEquals | Like | In | Contains

  datatype Condition =
    | Field(key: string, op: Operator, value: Value)
    | And(conditions: seq<Condition>)
    | Or(conditions: seq<Condition>)

  datatype Query = Query(
    contentType: string,
    scope: Option<string>,
    limit: Option<nat>,
    offset: Option<nat>,
    filter: Option<Condition>,
    orderBy: seq<Order>)

  datatype Relation = Relation(references: string, order: Option<Order>)

  datatype ContentDefinition = ContentDefinition(
    id: string,
    properties: map<string, PropertyType>,
    relations: map<string, Relation>,
    queries: map<string, Query>)

  /** Pagination data of a generated listing page. */
  datatype IteratorInfo = IteratorInfo(
    current: int,
    total: int,
    limit: int,
    items: seq<Content>,
    links: Value,
    scope: Option<string>)

  datatype Content = Content(
    id: string,
    slug: string,
    definition: ContentDefinition,
    properties: map<string, Value>,
    relations: map<string, seq<string>>,
    userDefined: Context,
    queryFields: Context,
    frontMatter: Context,
    markdown: string,
    lastModificationDate: int,
    iteratorInfo: Option<IteratorInfo>)

  /** The context categories a scope can enable. */
  datatype Category = UserDefined | Properties | Contents | Relations | Queries

  /** A scope: its categories and its field allow-list (empty: all fields). */
  datatype Scope = Scope(context: set<Category>, fields: seq<string>)

  // ---------------------------------------------------------------------
  // Pipelines and results

  datatype Output = Output(path: string, file: string, ext: string)

  datatype Engine = Engine(id: string, options: Context)

  /**
   * A pipeline: its id, its named queries, the content types its last-update
   * date is taken from, its output templates and its engine. Its scopes,
   * filter rules, transformers, date formats and asset rules are read only
   * by the collaborators.
   */
  datatype Pipeline = Pipeline(
    id: string,
    queries: map<string, Query>,
    lastUpdateTypes: seq<string>,
    output: Output,
    engine: Engine)

  datatype Destination = Destination(path: string, file: string, ext: string)

  datatype ContextBundle = ContextBundle(content: Content, context: Context, destination: Destination)

  datatype Source = ContentSource(value: string) | AssetSource(path: string)

  datatype PipelineResult = PipelineResult(source: Source, destination: Destination)

  datatype Settings = Settings(baseUrl: string, name: string, locale: string, timeZone: string, userDefined: Context)

  /** The bundle's contents are reached only through `Collaborators.prepare`. */
  datatype SourceBundle = SourceBundle(
    settings: Settings,
    generator: Value,
    pipelines: seq<Pipeline>,
    templates: map<string, string>)

  /** What `ContentRenderer.render` returns for a content's Markdown. */
  datatype RenderedContents = RenderedContents(html: string, readingTime: int, outline: Value)

  datatype Collaborators = Collaborators(
    /** `contents.run(query:now:)` */
    run: (seq<Content>, Query, int) -> seq<Content>,
    /** `query.resolveFilterParameters(with:)` */
    resolveFilterParameters: (Query, Context) -> Query,
    /** `pipeline.getScope(keyedBy:for:)` */
    scope: (Pipeline, string, string) -> Scope,
    /** `pipeline.contentTypes.isAllowed(contentType:)` */
    isAllowed: (Pipeline, string) -> bool,
    /** `toDateFormats` with the site's formatters */
    siteFormats: int -> Value,
    /** `toDateFormats` with the site's and the pipeline's formatters */
    pipelineFormats: (Pipeline, int) -> Value,
    /** `slug.permalink(baseUrl:)` with the site's base URL */
    permalink: string -> string,
    /** `ContentRenderer.render` with the pipeline's transformers */
    renderContents: (Pipeline, Content) -> RenderedContents,
    /** `ContentFilter.applyRules` on the bundle's contents, then `ContentIteratorResolver.resolve` */
    prepare: (Pipeline, int) -> seq<Content>,
    /** `AssetBehaviorExecutor.execute`; `None` when it throws */
    executeAssets: (Pipeline, seq<Content>) -> Option<seq<PipelineResult>>,
    /** `AssetPropertyResolver.resolve`; `None` when it throws */
    resolveAssets: (Pipeline, seq<Content>) -> Option<seq<Content>>,
    /** `ContextBundleToJSONRenderer.render` */
    renderJson: (Pipeline, seq<ContextBundle>) -> seq<PipelineResult>,
    /** whether `MustacheTemplate(string:)` accepts a template */
    parsesTemplate: string -> bool,
    /** `MustacheTemplateRenderer.render(template:with:)` */
    mustache: (string, Context) -> Option<string>)

  /**
   * The query engine selects from the contents it is given: every result of
   * `run` is one of its input contents.
   */
  ghost predicate RunSelects(co: Collaborators) {
    forall cs, q, now, x :: x in co.run(cs, q, now) ==> x in cs
  }

  /** No two contents share a slug (slugs are the pages' paths). */
  ghost predicate UniqueSlugs(contents: seq<Content>) {
    forall a, b :: a in contents && b in contents && a.slug == b.slug ==> a == b
  }

  /** The items of every listing page are among the contents. */
  ghost predicate ItemsWithin(contents: seq<Content>) {
    forall c, x :: c in contents && c.iteratorInfo.Some? && x in c.iteratorInfo.value.items ==> x in contents
  }
}
