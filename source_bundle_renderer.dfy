/**
 * `SourceBundleRenderer`: the renderer object whose `contentContextCache`
 * memoises content contexts across the requests of a render. Each method
 * updates the cache and is proved to return what `ContextSpec` says the
 * request computes, whether it is answered from the cache or not.
 *
 * The cache is keyed by request (pipeline id, slug, scope key,
 * `allowSubQueries`). A cached mapping is valid for a later request because
 * the other inputs are fixed per pipeline: every request of a pipeline's pass
 * uses the same contents and render time (recorded in the ghost `sessions`),
 * and a slug names one content of those contents.
 */
module SourceBundleRendering {
  import opened Wrappers
  import opened Text
  import opened Model
  import opened ContextBundleToHtml
  import opened ContextSpec

  /** A pass the resolver can serve: bounded nesting, one content per slug, listing items among the contents. */
  ghost predicate Admissible(co: Collaborators, s: Session) {
    ReferenceExcludesRelations(co, s.pipeline) && UniqueSlugs(s.contents) && ItemsWithin(s.contents)
  }

  /** `v` is the raw context of the content with the key's slug, requested as the key says. */
  ghost predicate Cached(co: Collaborators, s: Session, k: CacheKey, v: Context) {
    ReferenceExcludesRelations(co, s.pipeline)
    && exists c :: c in s.contents && c.slug == k.slug && v == RawContext(co, s, c, k.scopeKey, k.allowSubQueries)
  }

  /** Nothing cached before is removed or changed. */
  ghost predicate Grows(before: map<CacheKey, Context>, after: map<CacheKey, Context>) {
    forall k :: k in before ==> k in after && after[k] == before[k]
  }

  /**
   * What a render pass needs of the bundle: pipeline ids are distinct (the
   * cache tells pipelines apart by id), and each pipeline's contents, once
   * prepared and their assets resolved, form an admissible pass.
   */
  ghost predicate RenderReady(co: Collaborators, b: SourceBundle, now: int) {
    (forall i, j :: 0 <= i < j < |b.pipelines| ==> b.pipelines[i].id != b.pipelines[j].id)
    && (forall i :: 0 <= i < |b.pipelines| ==> ReferenceExcludesRelations(co, b.pipelines[i]))
    && (forall i :: 0 <= i < |b.pipelines| && PipelineSession(co, b.pipelines[i], now).Some? ==>
          Admissible(co, PipelineSession(co, b.pipelines[i], now).value))
  }

  lemma GrowsTransitive(a: map<CacheKey, Context>, b: map<CacheKey, Context>, c: map<CacheKey, Context>)
    requires Grows(a, b) && Grows(b, c)
    ensures Grows(a, c)
  {
  }

  /** Recording a pass that is already recorded changes nothing. */
  lemma RecordedAgain(sessions: map<string, Session>, id: string, s: Session)
    requires id in sessions && sessions[id] == s
    ensures sessions[id := s] == sessions
  {
  }

  class SourceBundleRenderer {
    const co: Collaborators
    const bundle: SourceBundle
    /** `contentContextCache`: the raw (not yet allow-listed) context of each request. */
    var cache: map<CacheKey, Context>
    /** The pass each pipeline id's cached contexts belong to. */
    ghost var sessions: map<string, Session>

    ghost predicate Valid()
      reads this
    {
      RunSelects(co)
      && (forall id :: id in sessions ==> sessions[id].pipeline.id == id && Admissible(co, sessions[id]))
      && (forall k :: k in cache ==> k.pipelineId in sessions && Cached(co, sessions[k.pipelineId], k, cache[k]))
    }

    /** A request may be made in pass `s`: the pass is admissible and is the one recorded for its pipeline. */
    ghost predicate Joins(s: Session)
      reads this
    {
      Admissible(co, s) && (s.pipeline.id in sessions ==> sessions[s.pipeline.id] == s)
    }

    constructor(co: Collaborators, bundle: SourceBundle)
      requires RunSelects(co)
      ensures this.co == co && this.bundle == bundle
      ensures cache == map[] && sessions == map[]
      ensures Valid()
    {
      this.co := co;
      this.bundle := bundle;
      cache := map[];
      sessions := map[];
    }

    /** Records pass `s` for its pipeline. */
    ghost method Enter(s: Session)
      requires Valid() && Joins(s)
      modifies this
      ensures Valid()
      ensures sessions == old(sessions)[s.pipeline.id := s] && cache == old(cache)
    {
      sessions := sessions[s.pipeline.id := s];
    }

    /** The `properties` loop of `getContentContext`. */
    method PropertiesOf(pipeline: Pipeline, content: Content) returns (r: Context)
      ensures r == PropertiesContext(co, pipeline, content)
    {
      r := map[];
      var keys := content.properties.Keys;
      while keys != {}
        invariant keys <= content.properties.Keys
        invariant r == map k | k in content.properties && k !in keys :: PropertyValue(co, pipeline, content.definition, k, content.properties[k])
        decreases keys
      {
        var k :| k in keys;
        var v := content.properties[k];
        if k in content.definition.properties && content.definition.properties[k].DateType? && v.Number? {
          r := r[k := co.pipelineFormats(pipeline, v.n)];
        } else {
          r := r[k := v];
        }
        keys := keys - {k};
      }
      r := r["slug" := Str(content.slug)];
      r := r["permalink" := Str(co.permalink(content.slug))];
      r := r["lastUpdate" := co.pipelineFormats(pipeline, content.lastModificationDate)];
    }

    /** Stores a raw context that is valid for its key. */
    method Store(key: CacheKey, result: Context)
      requires Valid() && key.pipelineId in sessions && Cached(co, sessions[key.pipelineId], key, result)
      modifies this
      ensures Valid()
      ensures cache == old(cache)[key := result] && sessions == old(sessions)
    {
      cache := cache[key := result];
    }

    /**
     * `getContentContext`. A request already in the cache is answered from
     * it without resolving anything and leaves the cache as it is; any other
     * request is computed category by category and its raw context stored.
     * Either way the answer is the raw context under the scope's allow-list.
     */
    method GetContentContext(pipeline: Pipeline, contents: seq<Content>, now: int, content: Content, scopeKey: string, allowSubQueries: bool)
      returns (r: Context)
      requires Valid() && Joins(Session(pipeline, contents, now)) && content in contents
      modifies this
      decreases Rank(co, pipeline, content, scopeKey, allowSubQueries), 2
      ensures Valid()
      ensures sessions == old(sessions)[pipeline.id := Session(pipeline, contents, now)]
      ensures r == ContentContext(co, Session(pipeline, contents, now), content, scopeKey, allowSubQueries)
      ensures var key := CacheKey(pipeline.id, content.slug, scopeKey, allowSubQueries);
        var scope := co.scope(pipeline, scopeKey, content.definition.id);
        && key in cache
        && (key in old(cache) ==> cache == old(cache))
        && r == CacheStep(old(cache), key, scope.fields, RawContext(co, Session(pipeline, contents, now), content, scopeKey, allowSubQueries)).0
      ensures Grows(old(cache), cache)
    {
      ghost var s := Session(pipeline, contents, now);
      Enter(s);
      var scope := co.scope(pipeline, scopeKey, content.definition.id);
      var key := CacheKey(pipeline.id, content.slug, scopeKey, allowSubQueries);
      if key in cache {
        assert Cached(co, s, key, cache[key]);
        ghost var c :| c in contents && c.slug == content.slug && cache[key] == RawContext(co, s, c, scopeKey, allowSubQueries);
        assert c == content;
        return Visible(cache[key], scope.fields);
      }
      ghost var entered := sessions;
      var result := ComputeContext(pipeline, contents, now, content, scopeKey, allowSubQueries);
      RecordedAgain(entered, pipeline.id, s);
      assert Cached(co, s, key, result);
      Store(key, result);
      r := Visible(result, scope.fields);
    }

    /** The uncached part of `getContentContext`: the raw context, category by category. */
    method ComputeContext(pipeline: Pipeline, contents: seq<Content>, now: int, content: Content, scopeKey: string, allowSubQueries: bool)
      returns (result: Context)
      requires Valid() && Joins(Session(pipeline, contents, now)) && content in contents
      modifies this
      decreases Rank(co, pipeline, content, scopeKey, allowSubQueries), 1
      ensures Valid()
      ensures sessions == old(sessions)[pipeline.id := Session(pipeline, contents, now)]
      ensures result == RawContext(co, Session(pipeline, contents, now), content, scopeKey, allowSubQueries)
      ensures Grows(old(cache), cache)
    {
      ghost var s := Session(pipeline, contents, now);
      Enter(s);
      ghost var entered := sessions;
      var scope := co.scope(pipeline, scopeKey, content.definition.id);
      result := map[];
      if UserDefined in scope.context {
        result := Merge(result, content.userDefined);
      }
      if Properties in scope.context {
        var properties := PropertiesOf(pipeline, content);
        result := result + properties;
      }
      if Contents in scope.context {
        result := result["contents" := ContentsValue(co, pipeline, content)];
      }
      ghost var base := LocalContext(co, pipeline, content, scope);
      assert result == base;
      if Relations in scope.context {
        var relations := ResolveRelations(pipeline, contents, now, content);
        RecordedAgain(entered, pipeline.id, s);
        result := result + relations;
      }
      ghost var withRelations := if Relations in scope.context then base + RelationsContext(co, s, content) else base;
      assert result == withRelations;
      if allowSubQueries && Queries in scope.context {
        var queries := ResolveQueries(pipeline, contents, now, content);
        RecordedAgain(entered, pipeline.id, s);
        result := result + queries;
      }
      assert RawContext(co, s, content, scopeKey, allowSubQueries)
        == if allowSubQueries && Queries in scope.context then withRelations + QueriesContext(co, s, content) else withRelations;
    }

    /** `items.map { getContentContext(...) }` */
    method ResolveList(pipeline: Pipeline, contents: seq<Content>, now: int, items: seq<Content>, scopeKey: string, allowSubQueries: bool)
      returns (r: seq<Value>)
      requires Valid() && Joins(Session(pipeline, contents, now))
      requires forall x :: x in items ==> x in contents
      modifies this
      decreases ListRank(scopeKey, allowSubQueries), 3
      ensures Valid()
      ensures sessions == old(sessions)[pipeline.id := Session(pipeline, contents, now)]
      ensures r == ContextList(co, Session(pipeline, contents, now), items, scopeKey, allowSubQueries)
      ensures Grows(old(cache), cache)
    {
      ghost var s := Session(pipeline, contents, now);
      Enter(s);
      r := [];
      for i := 0 to |items|
        invariant Valid()
        invariant sessions == old(sessions)[pipeline.id := s]
        invariant r == ContextList(co, s, items[..i], scopeKey, allowSubQueries)
        invariant Grows(old(cache), cache)
      {
        assert items[i] in items;
        assert Rank(co, pipeline, items[i], scopeKey, allowSubQueries) <= ListRank(scopeKey, allowSubQueries);
        ghost var entered := sessions;
        ghost var cached := cache;
        var context := GetContentContext(pipeline, contents, now, items[i], scopeKey, allowSubQueries);
        RecordedAgain(entered, pipeline.id, s);
        GrowsTransitive(old(cache), cached, cache);
        ContextListStep(co, s, items, i, scopeKey, allowSubQueries);
        r := r + [Obj(context)];
      }
      assert items[..|items|] == items;
    }

    /** The `relations` loop of `getContentContext`. */
    method ResolveRelations(pipeline: Pipeline, contents: seq<Content>, now: int, content: Content) returns (r: Context)
      requires Valid() && Joins(Session(pipeline, contents, now)) && content in contents
      modifies this
      decreases 1, 0
      ensures Valid()
      ensures sessions == old(sessions)[pipeline.id := Session(pipeline, contents, now)]
      ensures r == RelationsContext(co, Session(pipeline, contents, now), content)
      ensures Grows(old(cache), cache)
    {
      ghost var s := Session(pipeline, contents, now);
      Enter(s);
      r := map[];
      var keys := content.definition.relations.Keys;
      while keys != {}
        invariant Valid()
        invariant sessions == old(sessions)[pipeline.id := s]
        invariant keys <= content.definition.relations.Keys
        invariant r.Keys == content.definition.relations.Keys - keys
        invariant forall k :: k in r ==> r[k] == Arr(ContextList(co, s, RelatedContents(co, s, content, k), "reference", false))
        invariant Grows(old(cache), cache)
        decreases keys
      {
        var key :| key in keys;
        var relationContents := co.run(contents, RelationQuery(content, key), now);
        ghost var entered := sessions;
        ghost var cached := cache;
        var items := ResolveList(pipeline, contents, now, relationContents, "reference", false);
        RecordedAgain(entered, pipeline.id, s);
        GrowsTransitive(old(cache), cached, cache);
        r := r[key := Arr(items)];
        keys := keys - {key};
      }
      assert r == RelationsContext(co, s, content);
    }

    /** The sub-query loop of `getContentContext`. */
    method ResolveQueries(pipeline: Pipeline, contents: seq<Content>, now: int, content: Content) returns (r: Context)
      requires Valid() && Joins(Session(pipeline, contents, now)) && content in contents
      modifies this
      decreases 2, 0
      ensures Valid()
      ensures sessions == old(sessions)[pipeline.id := Session(pipeline, contents, now)]
      ensures r == QueriesContext(co, Session(pipeline, contents, now), content)
      ensures Grows(old(cache), cache)
    {
      ghost var s := Session(pipeline, contents, now);
      Enter(s);
      r := map[];
      var keys := content.definition.queries.Keys;
      while keys != {}
        invariant Valid()
        invariant sessions == old(sessions)[pipeline.id := s]
        invariant keys <= content.definition.queries.Keys
        invariant r.Keys == content.definition.queries.Keys - keys
        invariant forall k :: k in r ==>
          r[k] == Arr(ContextList(co, s, SubQueryContents(co, s, content, k), content.definition.queries[k].scope.GetOr("list"), false))
        invariant Grows(old(cache), cache)
        decreases keys
      {
        var key :| key in keys;
        var query := content.definition.queries[key];
        var queryContents := co.run(contents, co.resolveFilterParameters(query, content.queryFields), now);
        ghost var entered := sessions;
        ghost var cached := cache;
        var items := ResolveList(pipeline, contents, now, queryContents, query.scope.GetOr("list"), false);
        RecordedAgain(entered, pipeline.id, s);
        GrowsTransitive(old(cache), cached, cache);
        r := r[key := Arr(items)];
        keys := keys - {key};
      }
      assert r == QueriesContext(co, s, content);
    }

    /** `getPipelineContext` */
    method GetPipelineContext(pipeline: Pipeline, contents: seq<Content>, now: int) returns (r: Context)
      requires Valid() && Joins(Session(pipeline, contents, now))
      modifies this
      ensures Valid()
      ensures sessions == old(sessions)[pipeline.id := Session(pipeline, contents, now)]
      ensures r == PipelineContext(co, Session(pipeline, contents, now))
      ensures Grows(old(cache), cache)
    {
      var rawContext := ResolvePipelineQueries(pipeline, contents, now);
      r := map["context" := Obj(rawContext)];
    }

    /** The query loop of `getPipelineContext`. */
    method ResolvePipelineQueries(pipeline: Pipeline, contents: seq<Content>, now: int) returns (rawContext: Context)
      requires Valid() && Joins(Session(pipeline, contents, now))
      modifies this
      ensures Valid()
      ensures sessions == old(sessions)[pipeline.id := Session(pipeline, contents, now)]
      ensures rawContext == map k | k in pipeline.queries :: PipelineQueryValue(co, Session(pipeline, contents, now), k)
      ensures Grows(old(cache), cache)
    {
      ghost var s := Session(pipeline, contents, now);
      Enter(s);
      rawContext := map[];
      var keys := pipeline.queries.Keys;
      while keys != {}
        invariant Valid()
        invariant sessions == old(sessions)[pipeline.id := s]
        invariant keys <= pipeline.queries.Keys
        invariant rawContext.Keys == pipeline.queries.Keys - keys
        invariant forall k :: k in rawContext ==> rawContext[k] == PipelineQueryValue(co, s, k)
        invariant Grows(old(cache), cache)
        decreases keys
      {
        var key :| key in keys;
        var query := pipeline.queries[key];
        var results := co.run(contents, query, now);
        ghost var entered := sessions;
        ghost var cached := cache;
        var items := ResolveList(pipeline, contents, now, results, query.scope.GetOr("list"), true);
        RecordedAgain(entered, pipeline.id, s);
        GrowsTransitive(old(cache), cached, cache);
        rawContext := rawContext[key := Arr(items)];
        keys := keys - {key};
      }
      assert rawContext == map k | k in pipeline.queries :: PipelineQueryValue(co, s, k);
    }

    /** `getIteratorContext` */
    method GetIteratorContext(pipeline: Pipeline, contents: seq<Content>, now: int, content: Content) returns (r: Context)
      requires Valid() && Joins(Session(pipeline, contents, now)) && content in contents
      modifies this
      ensures Valid()
      ensures sessions == old(sessions)[pipeline.id := Session(pipeline, contents, now)]
      ensures r == IteratorContext(co, Session(pipeline, contents, now), content)
      ensures Grows(old(cache), cache)
    {
      Enter(Session(pipeline, contents, now));
      if content.iteratorInfo.None? {
        return map[];
      }
      var info := content.iteratorInfo.value;
      var items := ResolveList(pipeline, contents, now, info.items, info.scope.GetOr("list"), true);
      r := map["iterator" := Obj(map["total" := Int(info.total), "limit" := Int(info.limit), "current" := Int(info.current),
                                     "items" := Arr(items), "links" := info.links])];
    }

    /** `getContextBundle` */
    method GetContextBundle(pipeline: Pipeline, contents: seq<Content>, now: int, content: Content, pipelineContext: Context)
      returns (b: ContextBundle)
      requires Valid() && Joins(Session(pipeline, contents, now)) && content in contents
      modifies this
      ensures Valid()
      ensures sessions == old(sessions)[pipeline.id := Session(pipeline, contents, now)]
      ensures b == BundleFor(co, Session(pipeline, contents, now), content, pipelineContext)
      ensures Grows(old(cache), cache)
    {
      var pageContext := GetContentContext(pipeline, contents, now, content, "detail", true);
      ghost var entered := sessions;
      var iteratorContext := GetIteratorContext(pipeline, contents, now, content);
      RecordedAgain(entered, pipeline.id, Session(pipeline, contents, now));
      var context := Merge(Merge(map["page" := Obj(pageContext)], iteratorContext), pipelineContext);
      var outputArgs := OutputArgs(content);
      var path := ReplaceEach(pipeline.output.path, outputArgs);
      var file := ReplaceEach(pipeline.output.file, outputArgs);
      var ext := ReplaceEach(pipeline.output.ext, outputArgs);
      b := ContextBundle(content, context, Destination(path, file, ext));
    }

    /** `getContextBundles`: a bundle for each content whose type the pipeline allows. */
    method GetContextBundles(pipeline: Pipeline, contents: seq<Content>, now: int, globalContext: Context)
      returns (bundles: seq<ContextBundle>)
      requires Valid() && Joins(Session(pipeline, contents, now))
      modifies this
      ensures Valid()
      ensures sessions == old(sessions)[pipeline.id := Session(pipeline, contents, now)]
      ensures bundles == ContextBundles(co, Session(pipeline, contents, now), globalContext, contents)
      ensures Grows(old(cache), cache)
    {
      ghost var s := Session(pipeline, contents, now);
      Enter(s);
      bundles := [];
      for i := 0 to |contents|
        invariant Valid()
        invariant sessions == old(sessions)[pipeline.id := s]
        invariant bundles == ContextBundles(co, s, globalContext, contents[..i])
        invariant Grows(old(cache), cache)
      {
        var content := contents[i];
        ContextBundlesStep(co, s, globalContext, contents, i);
        if co.isAllowed(pipeline, content.definition.id) {
          ghost var entered := sessions;
          var pipelineContext := GetPipelineContext(pipeline, contents, now);
          RecordedAgain(entered, pipeline.id, s);
          var bundle := GetContextBundle(pipeline, contents, now, content, Merge(pipelineContext, globalContext));
          RecordedAgain(entered, pipeline.id, s);
          bundles := bundles + [bundle];
        } else {
          assert bundles + [] == bundles;
        }
      }
      assert contents[..|contents|] == contents;
    }

    /**
     * One pass of the `render(now:)` loop: prepare the pipeline's contents,
     * run its asset behaviours, resolve asset properties, build the context
     * bundles under the site context with the pipeline's `lastUpdate`, and
     * hand them to the engine. `None` where a step throws.
     */
    method RenderPipeline(pipeline: Pipeline, now: int) returns (out: Option<seq<PipelineResult>>)
      requires Valid() && pipeline.id !in sessions && ReferenceExcludesRelations(co, pipeline)
      requires PipelineSession(co, pipeline, now).Some? ==> Admissible(co, PipelineSession(co, pipeline, now).value)
      modifies this
      ensures Valid()
      ensures sessions.Keys <= old(sessions).Keys + {pipeline.id}
      ensures out == PipelineOutput(co, bundle, pipeline, now)
    {
      var contents := co.prepare(pipeline, now);
      var assetResults := co.executeAssets(pipeline, contents);
      if assetResults.None? {
        return None;
      }
      var finalContents := co.resolveAssets(pipeline, contents);
      if finalContents.None? {
        return None;
      }
      var lastUpdate := LastContentUpdate(co, contents, pipeline, now).GetOr(now);
      var siteContext := SiteContext(co, bundle, now)["lastUpdate" := co.pipelineFormats(pipeline, lastUpdate)];
      ghost var s := Session(pipeline, finalContents.value, now);
      assert PipelineSession(co, pipeline, now) == Some(s);
      var bundles := GetContextBundles(pipeline, finalContents.value, now, map["site" := Obj(siteContext)]);
      var engineResults: seq<PipelineResult>;
      if pipeline.engine.id == "json" || pipeline.engine.id == "context" {
        engineResults := co.renderJson(pipeline, bundles);
      } else if pipeline.engine.id == "mustache" {
        var renderer := MakeRenderer(co, pipeline, bundle.templates);
        if renderer.None? {
          return None;
        }
        engineResults := RenderBundles(renderer.value, bundles);
      } else {
        engineResults := [];
      }
      out := Some(assetResults.value + engineResults);
    }

    /**
     * `render(now:)`: every pipeline's pass in turn, the results
     * concatenated; a pass that throws ends the render with `None`. The
     * results are those of `RenderOutput`.
     */
    method Render(now: int) returns (r: Option<seq<PipelineResult>>)
      requires Valid() && RenderReady(co, bundle, now)
      requires forall i :: 0 <= i < |bundle.pipelines| ==> bundle.pipelines[i].id !in sessions
      modifies this
      ensures Valid()
      ensures r == RenderOutput(co, bundle, now)
    {
      var pipelines := bundle.pipelines;
      ghost var outs := PipelineOutputs(co, bundle, now);
      assert outs[..0] == [];
      var results := [];
      for i := 0 to |pipelines|
        invariant Valid()
        invariant forall j :: i <= j < |pipelines| ==> pipelines[j].id !in sessions
        invariant Collect(outs[..i]) == Some(results)
      {
        var out := RenderPipeline(pipelines[i], now);
        if out.None? {
          CollectFailsIffSomeFails(outs);
          return None;
        }
        assert outs[i] == out;
        CollectStep(outs, i, results, out.value);
        results := results + out.value;
      }
      assert outs[..|pipelines|] == outs;
      return Some(results);
    }
  }
}
