/**
 * What the context resolver of SourceBundleRenderer.swift computes, as
 * functions of the collaborators and of the render session (the pipeline,
 * its contents and the render time): a content's context under a scope, the
 * iterator and pipeline contexts, the context bundles, the last content
 * update and the engine dispatch. The renderer class is proved against these.
 *
 * Resolution terminates because the nesting is bounded: a top-level request
 * (`allowSubQueries` true) resolves relations and sub-queries with
 * `allowSubQueries` false, and relations resolve their targets under the
 * `"reference"` scope, which is required not to enable relations again.
 */
module ContextSpec {
  import opened Wrappers
  import opened Text
  import opened Model
  import opened ContextBundleToHtml

  /** One pipeline's pass of a render: the pipeline, its final contents and the render time. */
  datatype Session = Session(pipeline: Pipeline, contents: seq<Content>, now: int)

  /** The `"reference"` scope of no content type enables relations. */
  ghost predicate ReferenceExcludesRelations(co: Collaborators, p: Pipeline) {
    forall typeId :: Relations !in co.scope(p, "reference", typeId).context
  }

  /** How deep a request may still nest: 2 with sub-queries, 1 with relations, else 0. */
  function Rank(co: Collaborators, p: Pipeline, c: Content, scopeKey: string, allowSubQueries: bool): nat {
    if allowSubQueries then 2
    else if Relations in co.scope(p, scopeKey, c.definition.id).context then 1
    else 0
  }

  /** A bound on the rank of every request made with this scope key and flag. */
  function ListRank(scopeKey: string, allowSubQueries: bool): nat {
    if allowSubQueries then 2 else if scopeKey == "reference" then 0 else 1
  }

  // ---------------------------------------------------------------------
  // The categories of a content context

  /** A property's context value: a numeric date expands to its date formats. */
  function PropertyValue(co: Collaborators, p: Pipeline, definition: ContentDefinition, key: string, v: Value): Value {
    if key in definition.properties && definition.properties[key].DateType? && v.Number? then co.pipelineFormats(p, v.n)
    else v
  }

  /**
   * The `properties` category: every property, then `slug`, `permalink` and
   * `lastUpdate`.
   */
  function PropertiesContext(co: Collaborators, p: Pipeline, c: Content): (r: Context)
    ensures r.Keys == c.properties.Keys + {"slug", "permalink", "lastUpdate"}
    ensures r["slug"] == Str(c.slug)
    ensures r["permalink"] == Str(co.permalink(c.slug))
    ensures r["lastUpdate"] == co.pipelineFormats(p, c.lastModificationDate)
    ensures forall k :: k in c.properties && k !in {"slug", "permalink", "lastUpdate"} ==>
      if k in c.definition.properties && c.definition.properties[k].DateType? && c.properties[k].Number?
      then r[k] == co.pipelineFormats(p, c.properties[k].n)
      else r[k] == c.properties[k]
  {
    var props := map k | k in c.properties :: PropertyValue(co, p, c.definition, k, c.properties[k]);
    props["slug" := Str(c.slug)]["permalink" := Str(co.permalink(c.slug))]["lastUpdate" := co.pipelineFormats(p, c.lastModificationDate)]
  }

  /** The `contents` category's value: the rendered HTML, reading time and outline. */
  function ContentsValue(co: Collaborators, p: Pipeline, c: Content): Value {
    var rendered := co.renderContents(p, c);
    Obj(map["html" := Str(rendered.html), "readingTime" := Int(rendered.readingTime), "outline" := rendered.outline])
  }

  /** The identifiers a content lists under a relation (none when it lists nothing). */
  function RelationIdentifiers(c: Content, key: string): seq<string> {
    if key in c.relations then c.relations[key] else []
  }

  /**
   * The query of a relation: the referenced type, filtered to the listed
   * identifiers, ordered by the relation's order when it has one.
   */
  function RelationQuery(c: Content, key: string): (q: Query)
    requires key in c.definition.relations
    ensures q.contentType == c.definition.relations[key].references
    ensures q.scope.None? && q.limit.None? && q.offset.None?
    ensures c.definition.relations[key].order.Some? ==> q.orderBy == [c.definition.relations[key].order.value]
    ensures c.definition.relations[key].order.None? ==> q.orderBy == []
    ensures q.filter.Some? && q.filter.value.Field? && q.filter.value.key == "id" && q.filter.value.op == In
    ensures var listed := q.filter.value.value;
      listed.Arr? && |listed.items| == |RelationIdentifiers(c, key)|
      && forall i :: 0 <= i < |listed.items| ==> listed.items[i] == Str(RelationIdentifiers(c, key)[i])
  {
    var relation := c.definition.relations[key];
    var ids := RelationIdentifiers(c, key);
    var idValues := seq(|ids|, i requires 0 <= i < |ids| => Str(ids[i]));
    Query(relation.references, None, None, None, Some(Field("id", In, Arr(idValues))),
          if relation.order.Some? then [relation.order.value] else [])
  }

  /** The contents a relation resolves to. */
  function RelatedContents(co: Collaborators, s: Session, c: Content, key: string): seq<Content>
    requires key in c.definition.relations
  {
    co.run(s.contents, RelationQuery(c, key), s.now)
  }

  /** The contents a content's sub-query finds, its filter parameters taken from the content. */
  function SubQueryContents(co: Collaborators, s: Session, c: Content, key: string): seq<Content>
    requires key in c.definition.queries
  {
    co.run(s.contents, co.resolveFilterParameters(c.definition.queries[key], c.queryFields), s.now)
  }

  /**
   * The context mapping before the scope's allow-list: userDefined,
   * properties, contents, relations and sub-queries, each later category
   * overwriting the keys it shares with an earlier one.
   */
  function RawContext(co: Collaborators, s: Session, c: Content, scopeKey: string, allowSubQueries: bool): Context
    requires ReferenceExcludesRelations(co, s.pipeline)
    decreases Rank(co, s.pipeline, c, scopeKey, allowSubQueries), 1
  {
    var scope := co.scope(s.pipeline, scopeKey, c.definition.id);
    var base := LocalContext(co, s.pipeline, c, scope);
    var withRelations := if Relations in scope.context then base + RelationsContext(co, s, c) else base;
    if allowSubQueries && Queries in scope.context then withRelations + QueriesContext(co, s, c) else withRelations
  }

  /** The categories that need no other content: userDefined, properties and contents. */
  function LocalContext(co: Collaborators, p: Pipeline, c: Content, scope: Scope): Context {
    var withUser := if UserDefined in scope.context then Merge(map[], c.userDefined) else map[];
    var withProperties := if Properties in scope.context then withUser + PropertiesContext(co, p, c) else withUser;
    if Contents in scope.context then withProperties["contents" := ContentsValue(co, p, c)] else withProperties
  }

  /** The `relations` category: each relation's targets under the `"reference"` scope, without sub-queries. */
  function RelationsContext(co: Collaborators, s: Session, c: Content): (r: Context)
    requires ReferenceExcludesRelations(co, s.pipeline)
    decreases 1, 0
    ensures r.Keys == c.definition.relations.Keys
  {
    map key | key in c.definition.relations :: Arr(ContextList(co, s, RelatedContents(co, s, c, key), "reference", false))
  }

  /** The `queries` category: each sub-query's results under its own scope (default `"list"`), without sub-queries. */
  function QueriesContext(co: Collaborators, s: Session, c: Content): (r: Context)
    requires ReferenceExcludesRelations(co, s.pipeline)
    decreases 2, 0
    ensures r.Keys == c.definition.queries.Keys
  {
    map key | key in c.definition.queries ::
      Arr(ContextList(co, s, SubQueryContents(co, s, c, key), c.definition.queries[key].scope.GetOr("list"), false))
  }

  /** The scope's allow-list applied to a context: an empty list keeps every field. */
  function Visible(ctx: Context, fields: seq<string>): (r: Context)
    ensures fields == [] ==> r == ctx
    ensures fields != [] ==> forall k :: k in r <==> k in ctx && k in fields
    ensures forall k :: k in r ==> k in ctx && r[k] == ctx[k]
  {
    if fields == [] then ctx else map k | k in ctx && k in fields :: ctx[k]
  }

  /** `getContentContext`: the raw context under the scope's allow-list. */
  function ContentContext(co: Collaborators, s: Session, c: Content, scopeKey: string, allowSubQueries: bool): Context
    requires ReferenceExcludesRelations(co, s.pipeline)
    decreases Rank(co, s.pipeline, c, scopeKey, allowSubQueries), 2
  {
    Visible(RawContext(co, s, c, scopeKey, allowSubQueries), co.scope(s.pipeline, scopeKey, c.definition.id).fields)
  }

  /** `items.map { getContentContext(...) }` */
  function ContextList(co: Collaborators, s: Session, items: seq<Content>, scopeKey: string, allowSubQueries: bool): (r: seq<Value>)
    requires ReferenceExcludesRelations(co, s.pipeline)
    decreases ListRank(scopeKey, allowSubQueries), 3
    ensures |r| == |items|
    ensures forall i :: 0 <= i < |items| ==> r[i] == Obj(ContentContext(co, s, items[i], scopeKey, allowSubQueries))
  {
    seq(|items|, i requires 0 <= i < |items| => Obj(ContentContext(co, s, items[i], scopeKey, allowSubQueries)))
  }

  /** The contexts of one more item: those before it, then its own. */
  lemma ContextListStep(co: Collaborators, s: Session, items: seq<Content>, i: nat, scopeKey: string, allowSubQueries: bool)
    requires ReferenceExcludesRelations(co, s.pipeline) && i < |items|
    ensures ContextList(co, s, items[..i + 1], scopeKey, allowSubQueries)
      == ContextList(co, s, items[..i], scopeKey, allowSubQueries) + [Obj(ContentContext(co, s, items[i], scopeKey, allowSubQueries))]
  {
    var before := ContextList(co, s, items[..i], scopeKey, allowSubQueries);
    var after := ContextList(co, s, items[..i + 1], scopeKey, allowSubQueries);
    assert forall j :: 0 <= j < i ==> after[j] == before[j];
  }

  // ---------------------------------------------------------------------
  // What a content context holds

  /** The keys the enabled categories of a scope contribute. */
  ghost predicate Contributes(c: Content, scope: Scope, allowSubQueries: bool, k: string) {
    || (UserDefined in scope.context && k in c.userDefined)
    || (Properties in scope.context && (k in c.properties || k in {"slug", "permalink", "lastUpdate"}))
    || (Contents in scope.context && k == "contents")
    || (Relations in scope.context && k in c.definition.relations)
    || (allowSubQueries && Queries in scope.context && k in c.definition.queries)
  }

  /**
   * A key is in the raw context exactly when an enabled category contributes
   * it; in particular sub-query names appear only in top-level requests.
   */
  lemma RawContextKeys(co: Collaborators, s: Session, c: Content, scopeKey: string, allowSubQueries: bool, k: string)
    requires ReferenceExcludesRelations(co, s.pipeline)
    ensures k in RawContext(co, s, c, scopeKey, allowSubQueries)
      <==> Contributes(c, co.scope(s.pipeline, scopeKey, c.definition.id), allowSubQueries, k)
  {
    var scope := co.scope(s.pipeline, scopeKey, c.definition.id);
    LocalContextKeys(co, s.pipeline, c, scope, k);
  }

  lemma LocalContextKeys(co: Collaborators, p: Pipeline, c: Content, scope: Scope, k: string)
    ensures k in LocalContext(co, p, c, scope) <==>
      || (UserDefined in scope.context && k in c.userDefined)
      || (Properties in scope.context && (k in c.properties || k in {"slug", "permalink", "lastUpdate"}))
      || (Contents in scope.context && k == "contents")
  {
    PropertiesContextKeys(co, p, c, k);
  }

  lemma PropertiesContextKeys(co: Collaborators, p: Pipeline, c: Content, k: string)
    ensures k in PropertiesContext(co, p, c) <==> k in c.properties || k in {"slug", "permalink", "lastUpdate"}
  {
  }

  /**
   * A relation's entry lists the related contents resolved under the
   * `"reference"` scope without sub-queries, unless a sub-query of the same
   * name overwrites it.
   */
  lemma RelationEntry(co: Collaborators, s: Session, c: Content, scopeKey: string, allowSubQueries: bool, key: string)
    requires ReferenceExcludesRelations(co, s.pipeline)
    requires Relations in co.scope(s.pipeline, scopeKey, c.definition.id).context
    requires key in c.definition.relations
    requires !(allowSubQueries && Queries in co.scope(s.pipeline, scopeKey, c.definition.id).context && key in c.definition.queries)
    ensures key in RawContext(co, s, c, scopeKey, allowSubQueries)
      && RawContext(co, s, c, scopeKey, allowSubQueries)[key] == Arr(ContextList(co, s, RelatedContents(co, s, c, key), "reference", false))
  {
  }

  /**
   * A sub-query's entry lists its results under the sub-query's scope
   * (default `"list"`) without further sub-queries.
   */
  lemma SubQueryEntry(co: Collaborators, s: Session, c: Content, scopeKey: string, key: string)
    requires ReferenceExcludesRelations(co, s.pipeline)
    requires Queries in co.scope(s.pipeline, scopeKey, c.definition.id).context
    requires key in c.definition.queries
    ensures key in RawContext(co, s, c, scopeKey, true)
      && RawContext(co, s, c, scopeKey, true)[key] == Arr(ContextList(co, s, SubQueryContents(co, s, c, key), c.definition.queries[key].scope.GetOr("list"), false))
  {
  }

  /**
   * With a non-empty allow-list the context holds only allowed keys; with an
   * empty one it is the whole raw context.
   */
  lemma ContentContextAllowList(co: Collaborators, s: Session, c: Content, scopeKey: string, allowSubQueries: bool)
    requires ReferenceExcludesRelations(co, s.pipeline)
    ensures var scope := co.scope(s.pipeline, scopeKey, c.definition.id);
      var ctx := ContentContext(co, s, c, scopeKey, allowSubQueries);
      var raw := RawContext(co, s, c, scopeKey, allowSubQueries);
      (scope.fields == [] ==> ctx == raw)
      && (scope.fields != [] ==> forall k :: k in ctx <==> k in raw && k in scope.fields)
      && (forall k :: k in ctx ==> ctx[k] == raw[k])
  {
  }

  /** Applying the allow-list again changes nothing. */
  lemma VisibleIdempotent(ctx: Context, fields: seq<string>)
    ensures Visible(Visible(ctx, fields), fields) == Visible(ctx, fields)
  {
  }

  // ---------------------------------------------------------------------
  // The cache step of getContentContext

  /** The cache key: pipeline id, slug, scope key and `allowSubQueries`. */
  datatype CacheKey = CacheKey(pipelineId: string, slug: string, scopeKey: string, allowSubQueries: bool)

  /**
   * One request as written: a hit returns the stored mapping as it is; a
   * miss stores the raw mapping and returns it under the allow-list.
   */
  function CacheStepAsWritten(cache: map<CacheKey, Context>, key: CacheKey, fields: seq<string>, raw: Context)
    : (Context, map<CacheKey, Context>)
  {
    if key in cache then (cache[key], cache) else (Visible(raw, fields), cache[key := raw])
  }

  /** One request, corrected: a hit also applies the allow-list. */
  function CacheStep(cache: map<CacheKey, Context>, key: CacheKey, fields: seq<string>, raw: Context)
    : (Context, map<CacheKey, Context>)
  {
    if key in cache then (Visible(cache[key], fields), cache) else (Visible(raw, fields), cache[key := raw])
  }

  /**
   * As written, a second identical request returns fields the first one
   * filtered out: with allow-list `["title"]`, the first request returns
   * only `title` and the second also `body`.
   */
  lemma CacheHitSkipsAllowList()
    ensures var raw := map["title" := Str("a"), "body" := Str("b")];
      var key := CacheKey("html", "post", "detail", true);
      var first := CacheStepAsWritten(map[], key, ["title"], raw);
      var second := CacheStepAsWritten(first.1, key, ["title"], raw);
      "body" !in first.0 && "body" in second.0
  {
    var raw := map["title" := Str("a"), "body" := Str("b")];
    assert "body" != "title";
    assert "body" !in ["title"];
  }

  /**
   * Corrected, a request whose key is cached with the mapping it would
   * compute returns what a fresh computation returns and leaves the cache
   * as it is; so a repeated request gives the same answer.
   */
  lemma CacheStepStable(cache: map<CacheKey, Context>, key: CacheKey, fields: seq<string>, raw: Context)
    requires key in cache ==> cache[key] == raw
    ensures CacheStep(cache, key, fields, raw).0 == Visible(raw, fields)
    ensures var next := CacheStep(cache, key, fields, raw).1;
      key in next && next[key] == raw
      && CacheStep(next, key, fields, raw) == (Visible(raw, fields), next)
  {
  }

  // ---------------------------------------------------------------------
  // Iterator, pipeline and bundle contexts

  /**
   * `getIteratorContext`: nothing for an ordinary page; for a listing page
   * one `iterator` entry with the counters, the links and its items resolved
   * under the iterator's scope (default `"list"`).
   */
  function IteratorContext(co: Collaborators, s: Session, c: Content): (r: Context)
    requires ReferenceExcludesRelations(co, s.pipeline)
    ensures c.iteratorInfo.None? <==> r == map[]
    ensures c.iteratorInfo.Some? ==>
      var info := c.iteratorInfo.value;
      r.Keys == {"iterator"} && r["iterator"].Obj?
      && r["iterator"].fields.Keys == {"total", "limit", "current", "items", "links"}
      && r["iterator"].fields["total"] == Int(info.total)
      && r["iterator"].fields["limit"] == Int(info.limit)
      && r["iterator"].fields["current"] == Int(info.current)
      && r["iterator"].fields["links"] == info.links
      && r["iterator"].fields["items"] == Arr(ContextList(co, s, info.items, info.scope.GetOr("list"), true))
      && |r["iterator"].fields["items"].items| == |info.items|
  {
    match c.iteratorInfo
    case None => map[]
    case Some(info) =>
      var items := ContextList(co, s, info.items, info.scope.GetOr("list"), true);
      var r := map["iterator" := Obj(map["total" := Int(info.total), "limit" := Int(info.limit), "current" := Int(info.current),
                                         "items" := Arr(items), "links" := info.links])];
      assert "iterator" in r;
      r
  }

  /** The entry of one pipeline query: its results under the query's scope (default `"list"`). */
  function PipelineQueryValue(co: Collaborators, s: Session, key: string): Value
    requires ReferenceExcludesRelations(co, s.pipeline)
    requires key in s.pipeline.queries
  {
    var q := s.pipeline.queries[key];
    Arr(ContextList(co, s, co.run(s.contents, q, s.now), q.scope.GetOr("list"), true))
  }

  /** `getPipelineContext`: one `context` entry holding every pipeline query's results. */
  function PipelineContext(co: Collaborators, s: Session): (r: Context)
    requires ReferenceExcludesRelations(co, s.pipeline)
    ensures r.Keys == {"context"} && r["context"].Obj?
    ensures r["context"].fields.Keys == s.pipeline.queries.Keys
    ensures forall key :: key in s.pipeline.queries ==>
      var q := s.pipeline.queries[key];
      var results := co.run(s.contents, q, s.now);
      var entry := r["context"].fields[key];
      entry.Arr? && |entry.items| == |results|
      && forall i :: 0 <= i < |results| ==> entry.items[i] == Obj(ContentContext(co, s, results[i], q.scope.GetOr("list"), true))
  {
    map["context" := Obj(map key | key in s.pipeline.queries :: PipelineQueryValue(co, s, key))]
  }

  /** The output templates' substitutions; the iterator's only for a listing page. */
  function OutputArgs(c: Content): (r: seq<(string, string)>)
    ensures |r| == if c.iteratorInfo.Some? then 5 else 2
    ensures r[0] == ("{{id}}", c.id) && r[1] == ("{{slug}}", c.slug)
    ensures c.iteratorInfo.Some? ==>
      var info := c.iteratorInfo.value;
      r[2] == ("{{iterator.current}}", IntToString(info.current))
      && r[3] == ("{{iterator.total}}", IntToString(info.total))
      && r[4] == ("{{iterator.limit}}", IntToString(info.limit))
    ensures forall i :: 0 <= i < |r| ==> |r[i].0| > 0
  {
    [("{{id}}", c.id), ("{{slug}}", c.slug)]
      + match c.iteratorInfo
        case None => []
        case Some(info) =>
          [("{{iterator.current}}", IntToString(info.current)),
           ("{{iterator.total}}", IntToString(info.total)),
           ("{{iterator.limit}}", IntToString(info.limit))]
  }

  /** The substitutions' tokens: the iterator's exactly when the page is a listing page. */
  lemma OutputArgsTokens(c: Content)
    ensures forall i :: 0 <= i < |OutputArgs(c)| ==>
      OutputArgs(c)[i].0 in {"{{id}}", "{{slug}}", "{{iterator.current}}", "{{iterator.total}}", "{{iterator.limit}}"}
    ensures (exists i :: 0 <= i < |OutputArgs(c)| && OutputArgs(c)[i].0 == "{{iterator.current}}") <==> c.iteratorInfo.Some?
  {
    if c.iteratorInfo.Some? {
      assert OutputArgs(c)[2].0 == "{{iterator.current}}";
    } else {
      assert "{{id}}" != "{{iterator.current}}" && "{{slug}}" != "{{iterator.current}}";
    }
  }

  function DestinationFor(output: Output, c: Content): Destination {
    var args := OutputArgs(c);
    Destination(ReplaceEach(output.path, args), ReplaceEach(output.file, args), ReplaceEach(output.ext, args))
  }

  /** Output templates without any token are used as they are. */
  lemma DestinationWithoutTokens(output: Output, c: Content)
    requires forall i :: 0 <= i < |OutputArgs(c)| ==>
      !Occurs(output.path, OutputArgs(c)[i].0) && !Occurs(output.file, OutputArgs(c)[i].0) && !Occurs(output.ext, OutputArgs(c)[i].0)
    ensures DestinationFor(output, c) == Destination(output.path, output.file, output.ext)
  {
    ReplaceEachAbsent(output.path, OutputArgs(c));
    ReplaceEachAbsent(output.file, OutputArgs(c));
    ReplaceEachAbsent(output.ext, OutputArgs(c));
  }

  /**
   * `getContextBundle`: the page context under the `"detail"` scope, merged
   * with the iterator and pipeline contexts, written to the pipeline's
   * output templates with the content's substitutions.
   */
  function BundleFor(co: Collaborators, s: Session, c: Content, pipelineContext: Context): ContextBundle
    requires ReferenceExcludesRelations(co, s.pipeline)
  {
    var page := map["page" := Obj(ContentContext(co, s, c, "detail", true))];
    ContextBundle(c, Merge(Merge(page, IteratorContext(co, s, c)), pipelineContext), DestinationFor(s.pipeline.output, c))
  }

  /**
   * A bundle's context has `page`, `iterator` exactly for a listing page,
   * and the pipeline context's keys; `page` is the `"detail"` context when
   * the pipeline context does not redefine it.
   */
  lemma BundleContext(co: Collaborators, s: Session, c: Content, pipelineContext: Context)
    requires ReferenceExcludesRelations(co, s.pipeline)
    ensures var b := BundleFor(co, s, c, pipelineContext);
      b.content == c
      && b.context.Keys == {"page"} + (if c.iteratorInfo.Some? then {"iterator"} else {}) + pipelineContext.Keys
      && ("page" !in pipelineContext ==> b.context["page"] == Obj(ContentContext(co, s, c, "detail", true)))
      && b.destination == DestinationFor(s.pipeline.output, c)
  {
    var b := BundleFor(co, s, c, pipelineContext);
    var iter := IteratorContext(co, s, c);
    assert "page" !in iter;
  }

  /** `getContextBundles` over a prefix of the session's contents: one bundle per allowed content. */
  function ContextBundles(co: Collaborators, s: Session, global: Context, cs: seq<Content>): (r: seq<ContextBundle>)
    requires ReferenceExcludesRelations(co, s.pipeline)
    ensures |r| <= |cs|
  {
    if cs == [] then []
    else
      var c := cs[|cs| - 1];
      ContextBundles(co, s, global, cs[..|cs| - 1])
        + if co.isAllowed(s.pipeline, c.definition.id)
          then [BundleFor(co, s, c, Merge(PipelineContext(co, s), global))]
          else []
  }

  lemma ContextBundlesStep(co: Collaborators, s: Session, global: Context, cs: seq<Content>, i: nat)
    requires ReferenceExcludesRelations(co, s.pipeline)
    requires i < |cs|
    ensures ContextBundles(co, s, global, cs[..i + 1])
      == ContextBundles(co, s, global, cs[..i])
         + if co.isAllowed(s.pipeline, cs[i].definition.id) then [BundleFor(co, s, cs[i], Merge(PipelineContext(co, s), global))] else []
  {
    assert cs[..i + 1][..i] == cs[..i];
  }

  function BundleContents(bs: seq<ContextBundle>): seq<Content> {
    seq(|bs|, i requires 0 <= i < |bs| => bs[i].content)
  }

  function Allowed(co: Collaborators, p: Pipeline, cs: seq<Content>): seq<Content> {
    if cs == [] then []
    else Allowed(co, p, cs[..|cs| - 1]) + if co.isAllowed(p, cs[|cs| - 1].definition.id) then [cs[|cs| - 1]] else []
  }

  /** The bundles are those of the allowed contents, in input order; the others are dropped. */
  lemma {:induction false} BundlesFollowAllowedContents(co: Collaborators, s: Session, global: Context, cs: seq<Content>)
    requires ReferenceExcludesRelations(co, s.pipeline)
    ensures BundleContents(ContextBundles(co, s, global, cs)) == Allowed(co, s.pipeline, cs)
  {
    if cs != [] {
      var init := cs[..|cs| - 1];
      var c := cs[|cs| - 1];
      BundlesFollowAllowedContents(co, s, global, init);
      var before := ContextBundles(co, s, global, init);
      var added := if co.isAllowed(s.pipeline, c.definition.id) then [BundleFor(co, s, c, Merge(PipelineContext(co, s), global))] else [];
      assert ContextBundles(co, s, global, cs) == before + added;
      BundleContentsAppend(before, added);
      assert BundleContents(added) == if co.isAllowed(s.pipeline, c.definition.id) then [c] else [];
    }
  }

  lemma BundleContentsAppend(a: seq<ContextBundle>, b: seq<ContextBundle>)
    ensures BundleContents(a + b) == BundleContents(a) + BundleContents(b)
  {
  }

  // ---------------------------------------------------------------------
  // Last content update

  /** The query for the newest content of a type. */
  function LatestQuery(typeId: string): Query {
    Query(typeId, None, Some(1), None, None, [Order("lastUpdate", Desc)])
  }

  /** The content types considered: every content's type, restricted to the pipeline's list when it has one. */
  function UpdateTypes(contents: seq<Content>, p: Pipeline): (r: seq<string>)
    ensures forall t :: t in r ==> exists c :: c in contents && c.definition.id == t
    ensures p.lastUpdateTypes != [] ==> forall t :: t in r ==> t in p.lastUpdateTypes
    ensures forall c :: (c in contents && (p.lastUpdateTypes == [] || c.definition.id in p.lastUpdateTypes)
      ==> c.definition.id in r)
  {
    if contents == [] then []
    else
      var rest := UpdateTypes(contents[1..], p);
      var t := contents[0].definition.id;
      assert forall c :: c in contents[1..] ==> c in contents;
      if p.lastUpdateTypes == [] || t in p.lastUpdateTypes then [t] + rest else rest
  }

  /** The newest modification date of each type, for the types where the query finds a content. */
  function LatestDates(co: Collaborators, contents: seq<Content>, now: int, types: seq<string>): seq<int> {
    if types == [] then []
    else
      var items := co.run(contents, LatestQuery(types[0]), now);
      (if items != [] then [items[0].lastModificationDate] else []) + LatestDates(co, contents, now, types[1..])
  }

  /** `.sorted(by: >).first` */
  function Max(xs: seq<int>): Option<int> {
    if xs == [] then None
    else
      var rest := Max(xs[1..]);
      if rest.Some? && rest.value > xs[0] then rest else Some(xs[0])
  }

  lemma {:induction false} MaxIsGreatest(xs: seq<int>)
    ensures Max(xs).None? <==> xs == []
    ensures Max(xs).Some? ==> Max(xs).value in xs && forall x :: x in xs ==> x <= Max(xs).value
  {
    if xs != [] {
      MaxIsGreatest(xs[1..]);
      assert forall x :: x in xs ==> x == xs[0] || x in xs[1..];
    }
  }

  /** `getLastContentUpdate` */
  function LastContentUpdate(co: Collaborators, contents: seq<Content>, p: Pipeline, now: int): Option<int> {
    Max(LatestDates(co, contents, now, UpdateTypes(contents, p)))
  }

  lemma {:induction false} LatestDatesAreModificationDates(co: Collaborators, contents: seq<Content>, now: int, types: seq<string>)
    requires RunSelects(co)
    ensures forall d :: d in LatestDates(co, contents, now, types) ==> exists c :: c in contents && c.lastModificationDate == d
  {
    if types != [] {
      LatestDatesAreModificationDates(co, contents, now, types[1..]);
      var items := co.run(contents, LatestQuery(types[0]), now);
      if items != [] {
        assert items[0] in items;
      }
    }
  }

  lemma {:induction false} LatestDatesCover(co: Collaborators, contents: seq<Content>, now: int, types: seq<string>)
    ensures forall t :: t in types && co.run(contents, LatestQuery(t), now) != [] ==>
      co.run(contents, LatestQuery(t), now)[0].lastModificationDate in LatestDates(co, contents, now, types)
    ensures LatestDates(co, contents, now, types) == [] <==> forall t :: t in types ==> co.run(contents, LatestQuery(t), now) == []
  {
    if types != [] {
      LatestDatesCover(co, contents, now, types[1..]);
      assert forall t :: t in types ==> t == types[0] || t in types[1..];
    }
  }

  /**
   * The last update is the newest of the per-type newest modification dates:
   * one of the contents' dates, at least each considered type's newest one,
   * and absent exactly when no considered type has a content.
   */
  lemma LastContentUpdateIsNewest(co: Collaborators, contents: seq<Content>, p: Pipeline, now: int)
    requires RunSelects(co)
    ensures var types := UpdateTypes(contents, p);
      var last := LastContentUpdate(co, contents, p, now);
      (last.None? <==> forall t :: t in types ==> co.run(contents, LatestQuery(t), now) == [])
      && (last.Some? ==> exists c :: c in contents && c.lastModificationDate == last.value)
      && (last.Some? ==> forall t :: t in types && co.run(contents, LatestQuery(t), now) != [] ==>
            co.run(contents, LatestQuery(t), now)[0].lastModificationDate <= last.value)
  {
    var types := UpdateTypes(contents, p);
    var dates := LatestDates(co, contents, now, types);
    MaxIsGreatest(dates);
    LatestDatesAreModificationDates(co, contents, now, types);
    LatestDatesCover(co, contents, now, types);
  }

  // ---------------------------------------------------------------------
  // The render pass

  /** `getSiteContext`: the site's own fields merged with its settings and generation data. */
  function SiteContext(co: Collaborators, b: SourceBundle, now: int): (r: Context)
    ensures r.Keys == b.settings.userDefined.Keys + {"baseUrl", "name", "locale", "timeZone", "generation", "generator"}
    ensures r["baseUrl"] == Str(b.settings.baseUrl) && r["name"] == Str(b.settings.name)
      && r["locale"] == Str(b.settings.locale) && r["timeZone"] == Str(b.settings.timeZone)
      && r["generation"] == co.siteFormats(now) && r["generator"] == b.generator
    ensures forall k :: k in b.settings.userDefined && k !in {"baseUrl", "name", "locale", "timeZone", "generation", "generator"} ==>
      r[k] == b.settings.userDefined[k]
  {
    Merge(b.settings.userDefined,
          map["baseUrl" := Str(b.settings.baseUrl), "name" := Str(b.settings.name), "locale" := Str(b.settings.locale),
              "timeZone" := Str(b.settings.timeZone), "generation" := co.siteFormats(now), "generator" := b.generator])
  }

  /**
   * The engine switch: `json` and `context` use the JSON renderer,
   * `mustache` the HTML renderer (whose construction can throw), and any
   * other engine contributes nothing.
   */
  function EngineOutput(co: Collaborators, templates: map<string, string>, p: Pipeline, bundles: seq<ContextBundle>)
    : (r: Option<seq<PipelineResult>>)
    ensures p.engine.id == "json" || p.engine.id == "context" ==> r == Some(co.renderJson(p, bundles))
    ensures p.engine.id == "mustache" ==>
      (r.Some? <==> MakeRenderer(co, p, templates).Some?)
      && (r.Some? ==> r.value == RenderBundles(MakeRenderer(co, p, templates).value, bundles))
    ensures p.engine.id !in {"json", "context", "mustache"} ==> r == Some([])
    ensures r.None? ==> p.engine.id == "mustache"
  {
    if p.engine.id == "json" || p.engine.id == "context" then Some(co.renderJson(p, bundles))
    else if p.engine.id == "mustache" then
      match MakeRenderer(co, p, templates)
      case None => None
      case Some(renderer) => Some(RenderBundles(renderer, bundles))
    else Some([])
  }

  /** The session a pipeline's pass runs in, once its assets are resolved. */
  function PipelineSession(co: Collaborators, p: Pipeline, now: int): Option<Session> {
    match co.resolveAssets(p, co.prepare(p, now))
    case None => None
    case Some(finalContents) => Some(Session(p, finalContents, now))
  }

  /** The site context a pipeline's bundles see: `lastUpdate` falls back to the render time. */
  function PipelineSite(co: Collaborators, b: SourceBundle, p: Pipeline, now: int): Context {
    var lastUpdate := LastContentUpdate(co, co.prepare(p, now), p, now).GetOr(now);
    SiteContext(co, b, now)["lastUpdate" := co.pipelineFormats(p, lastUpdate)]
  }

  /** One pipeline's results: its asset results, then its engine's; `None` when a step throws. */
  function PipelineOutput(co: Collaborators, b: SourceBundle, p: Pipeline, now: int): Option<seq<PipelineResult>>
    requires ReferenceExcludesRelations(co, p)
  {
    var contents := co.prepare(p, now);
    match co.executeAssets(p, contents)
    case None => None
    case Some(assets) =>
      match PipelineSession(co, p, now)
      case None => None
      case Some(s) =>
        var global := map["site" := Obj(PipelineSite(co, b, p, now))];
        var bundles := ContextBundles(co, s, global, s.contents);
        match EngineOutput(co, b.templates, p, bundles)
        case None => None
        case Some(out) => Some(assets + out)
  }

  /** The results of passes run in order: their concatenation, `None` once one of them throws. */
  function Collect(outs: seq<Option<seq<PipelineResult>>>): Option<seq<PipelineResult>> {
    if outs == [] then Some([])
    else
      match Collect(outs[..|outs| - 1])
      case None => None
      case Some(before) =>
        match outs[|outs| - 1]
        case None => None
        case Some(out) => Some(before + out)
  }

  /** One more pass on top of passes that succeeded. */
  lemma CollectStep(outs: seq<Option<seq<PipelineResult>>>, i: nat, before: seq<PipelineResult>, out: seq<PipelineResult>)
    requires i < |outs| && Collect(outs[..i]) == Some(before) && outs[i] == Some(out)
    ensures Collect(outs[..i + 1]) == Some(before + out)
  {
    assert outs[..i + 1][..i] == outs[..i];
  }

  lemma {:induction false} CollectFailsIffSomeFails(outs: seq<Option<seq<PipelineResult>>>)
    ensures Collect(outs).None? <==> exists i :: 0 <= i < |outs| && outs[i].None?
  {
    if outs != [] {
      var init := outs[..|outs| - 1];
      CollectFailsIffSomeFails(init);
      if Collect(init).None? {
        var i :| 0 <= i < |init| && init[i].None?;
        assert outs[i] == init[i];
      } else {
        assert forall i :: 0 <= i < |init| ==> init[i] == outs[i];
      }
    }
  }

  /** Each pipeline's pass, in the bundle's order. */
  function PipelineOutputs(co: Collaborators, b: SourceBundle, now: int): (r: seq<Option<seq<PipelineResult>>>)
    requires forall i :: 0 <= i < |b.pipelines| ==> ReferenceExcludesRelations(co, b.pipelines[i])
    ensures |r| == |b.pipelines|
    ensures forall i :: 0 <= i < |b.pipelines| ==> r[i] == PipelineOutput(co, b, b.pipelines[i], now)
  {
    seq(|b.pipelines|, i requires 0 <= i < |b.pipelines| => PipelineOutput(co, b, b.pipelines[i], now))
  }

  /** `render(now:)`: every pipeline's pass, in order. */
  function RenderOutput(co: Collaborators, b: SourceBundle, now: int): Option<seq<PipelineResult>>
    requires forall i :: 0 <= i < |b.pipelines| ==> ReferenceExcludesRelations(co, b.pipelines[i])
  {
    Collect(PipelineOutputs(co, b, now))
  }

  /** A pipeline with an unknown engine contributes its asset results only. */
  lemma UnknownEngineOnlyAssets(co: Collaborators, b: SourceBundle, p: Pipeline, now: int)
    requires ReferenceExcludesRelations(co, p)
    requires p.engine.id !in {"json", "context", "mustache"}
    requires co.resolveAssets(p, co.prepare(p, now)).Some?
    ensures PipelineOutput(co, b, p, now) == co.executeAssets(p, co.prepare(p, now))
  {
    var contents := co.prepare(p, now);
    if co.executeAssets(p, contents).Some? {
      assert co.executeAssets(p, contents).value + [] == co.executeAssets(p, contents).value;
    }
  }

  /** A render fails exactly when some pipeline's pass throws. */
  lemma RenderFailsIffSomePipelineFails(co: Collaborators, b: SourceBundle, now: int)
    requires forall i :: 0 <= i < |b.pipelines| ==> ReferenceExcludesRelations(co, b.pipelines[i])
    ensures RenderOutput(co, b, now).None? <==> exists i :: 0 <= i < |b.pipelines| && PipelineOutput(co, b, b.pipelines[i], now).None?
  {
    var outs := PipelineOutputs(co, b, now);
    CollectFailsIffSomeFails(outs);
    if Collect(outs).None? {
      var i :| 0 <= i < |outs| && outs[i].None?;
      assert PipelineOutput(co, b, b.pipelines[i], now).None?;
    } else {
      forall i | 0 <= i < |b.pipelines| ensures PipelineOutput(co, b, b.pipelines[i], now).Some? {
        assert outs[i].Some?;
      }
    }
  }
}
