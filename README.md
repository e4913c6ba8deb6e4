# Toucan rendering core, modelled in Dafny

Toucan is a static site generator written in Swift. This project models the
three pieces of it that turn loaded site content into output files:

- **`SourceBundleRenderer`** (`source_bundle_renderer.dfy`, specified by `context_spec.dfy`)
  - It makes one pass per pipeline over the site's contents: it filters them and resolves their assets.
  - It builds a context bundle for every content the pipeline allows. The bundle holds the page context, the listing-page iterator, the pipeline's queries and the site context.
  - It hands the bundles to the pipeline's engine: JSON, Mustache, or none.
  - The page contexts are assembled category by category (`userDefined`, `properties`, `contents`, `relations`, `queries`) and memoised in the renderer's `contentContextCache`.
  - The renderer is a Dafny `class` with the cache as a `map` field. Every method is proved to return what the pure specification in `ContextSpec` computes, whether or not the cache answers the request. On a cache hit that specification applies the scope's allow-list, which the source omits (see Findings and Left out). A ghost record of each pipeline's pass (`sessions`) and the invariant `Valid()` state when a cached mapping is still correct.
- **`ContextBundleToHTMLRenderer`** (`context_bundle_to_html.dfy`): the Mustache engine.
  - It picks each bundle's template: the content's own, else its content type's.
  - It keeps the non-empty results.
- **`HTMLVisitor`** (`html_visitor.dfy`, with `markdown.dfy`, `html.dfy` and `text.dfy`): renders a parsed Markdown tree to HTML.
  - This includes the callout block quotes, highlighted code blocks, link rewriting and custom block directives.
  - It is a pure recursive function of the node and of the chain of its ancestors.
  - `Config.variant` selects the visitor as written (`AsWritten`, what the source renders) or with the two corrections listed under Findings (`Corrected`).
  - `html_visitor_examples.dfy` states expected outputs of the visitor's test suite over the suite's configuration.

The libraries these pieces call are parameters (`Model.Collaborators`, `HtmlVisitor.Config`):
- the query engine, scope lookup, date formatting, permalinks;
- the Markdown content renderer, asset handling;
- the JSON and Mustache renderers, slugify, the directive argument parser.

`Model.RunSelects` states the one thing assumed of the query engine: it returns some of the contents it is given.

## Model

| member | source | states |
|---|---|---|
| ContextSpec.PropertiesContext | Sources/ToucanSource/Bundle/SourceBundleRenderer.swift:398-424 | The `properties` category holds every property plus `slug`, `permalink` and `lastUpdate`. Those three hold the slug, its permalink and the formatted modification date. Every other property keeps its own value, or its date formats when it is a date. |
| ContextSpec.RelationQuery | Sources/ToucanSource/Bundle/SourceBundleRenderer.swift:466-483 | A relation's query asks for the referenced type. It has no scope, limit or offset. Its filter is `id in` the content's listed identifiers, in their order (none when it lists nothing). It is ordered by the relation's order when the relation has one, and unordered otherwise. |
| ContextSpec.Visible | Sources/ToucanSource/Bundle/SourceBundleRenderer.swift:528-533 | An empty allow-list keeps the whole context. Otherwise a key survives exactly when it is both in the context and allowed, and the value is kept unchanged. |
| ContextSpec.VisibleIdempotent | Sources/ToucanSource/Bundle/SourceBundleRenderer.swift:528-533 | Applying the allow-list a second time changes nothing. |
| ContextSpec.RawContextKeys | Sources/ToucanSource/Bundle/SourceBundleRenderer.swift:394-526 | A key is in a content's context exactly when a category the scope enables contributes it. Sub-query names appear only when sub-queries are allowed. |
| ContextSpec.RelationEntry | Sources/ToucanSource/Bundle/SourceBundleRenderer.swift:465-500 | A relation's entry lists the related contents' contexts under the `"reference"` scope without sub-queries, unless a sub-query of the same name overwrites it. |
| ContextSpec.SubQueryEntry | Sources/ToucanSource/Bundle/SourceBundleRenderer.swift:502-526 | A sub-query's entry lists its results' contexts under the query's scope (default `"list"`) without further sub-queries. |
| ContextSpec.ContentContextAllowList | Sources/ToucanSource/Bundle/SourceBundleRenderer.swift:528-533 | The requested context is the raw context under the scope's allow-list. With a non-empty list it holds allowed keys only. |
| ContextSpec.RelationsContext | Sources/ToucanSource/Bundle/SourceBundleRenderer.swift:465-500 | The `relations` category has one entry per relation of the content type. |
| ContextSpec.QueriesContext | Sources/ToucanSource/Bundle/SourceBundleRenderer.swift:502-526 | The `queries` category has one entry per sub-query of the content type. |
| ContextSpec.ContextList | Sources/ToucanSource/Bundle/SourceBundleRenderer.swift:279-288 | A list of contents maps to one context per content, in order: each is that content's context under the given scope, requested with the given `allowSubQueries`. |
| ContextSpec.CacheHitSkipsAllowList | Sources/ToucanSource/Bundle/SourceBundleRenderer.swift:390-392 | As written, the first request with allow-list `["title"]` returns no `body`. A second identical request, answered from the cache, returns `body`. |
| ContextSpec.CacheStepStable | Sources/ToucanSource/Bundle/SourceBundleRenderer.swift:381-392 | Corrected, a request returns the allow-listed context whether or not it hits the cache. It leaves its raw context cached, and repeating it changes neither answer nor cache. |
| ContextSpec.IteratorContext | Sources/ToucanSource/Bundle/SourceBundleRenderer.swift:270-300 | An ordinary page gets an empty iterator context. A listing page gets one `iterator` entry holding the counters, the links and one context per item, under the iterator's scope (default `"list"`). |
| ContextSpec.PipelineContext | Sources/ToucanSource/Bundle/SourceBundleRenderer.swift:242-268 | The pipeline context is a single `context` entry with one key per pipeline query. Each key holds one context per result of running that query over the pass's contents, in result order, under the query's scope (default `"list"`) with sub-queries allowed. |
| ContextSpec.OutputArgs | Sources/ToucanSource/Bundle/SourceBundleRenderer.swift:332-342 | The output substitutions are `{{id}}` and `{{slug}}`, holding the content's id and slug. On a listing page they are followed by `{{iterator.current}}`, `{{iterator.total}}` and `{{iterator.limit}}`, holding those counters as decimal text. |
| ContextSpec.OutputArgsTokens | Sources/ToucanSource/Bundle/SourceBundleRenderer.swift:332-342 | The tokens are `{{id}}`, `{{slug}}` and the three iterator counters, and the iterator's appear exactly on a listing page. |
| ContextSpec.DestinationWithoutTokens | Sources/ToucanSource/Bundle/SourceBundleRenderer.swift:343-355 | Output templates that contain no token are used as they are. |
| ContextSpec.BundleContext | Sources/ToucanSource/Bundle/SourceBundleRenderer.swift:302-356 | A bundle's context has `page`, plus `iterator` exactly on a listing page, plus the pipeline context's keys. `page` is the content's `"detail"` context. The destination is the substituted output. |
| ContextSpec.ContextBundlesStep | Sources/ToucanSource/Bundle/SourceBundleRenderer.swift:216-239 | Each content adds its bundle after those of the contents before it, exactly when the pipeline allows its type. The bundle is built with the pipeline context merged with the global context. |
| ContextSpec.BundlesFollowAllowedContents | Sources/ToucanSource/Bundle/SourceBundleRenderer.swift:216-239 | The bundles belong exactly to the contents whose type the pipeline allows, in input order. |
| ContextSpec.UpdateTypes | Sources/ToucanSource/Bundle/SourceBundleRenderer.swift:79-84 | The types considered for the last update are content types present among the contents. A non-empty pipeline list restricts them. Every allowed type is included. |
| ContextSpec.MaxIsGreatest | Sources/ToucanSource/Bundle/SourceBundleRenderer.swift:85-103 | `sorted(by: >).first` is absent exactly on an empty list. Otherwise it is an element no smaller than any other. |
| ContextSpec.LastContentUpdateIsNewest | Sources/ToucanSource/Bundle/SourceBundleRenderer.swift:73-104 | The last update is absent exactly when no considered type has a content. Otherwise it is some content's modification date and at least each considered type's newest date. |
| ContextSpec.SiteContext | Sources/ToucanSource/Bundle/SourceBundleRenderer.swift:57-71 | The site context has the user-defined keys plus `baseUrl`, `name`, `locale`, `timeZone`, `generation` and `generator`. The six built-in keys hold the settings' values, the formatted render time and the generator info, overriding user-defined keys of the same name. Every other user-defined key keeps its value. |
| ContextSpec.EngineOutput | Sources/ToucanSource/Bundle/SourceBundleRenderer.swift:185-204 | `json` and `context` use the JSON renderer. `mustache` fails exactly when the HTML renderer cannot be built, and otherwise renders the bundles. Any other engine adds nothing. Only `mustache` can fail. |
| ContextSpec.PipelineOutputs | Sources/ToucanSource/Bundle/SourceBundleRenderer.swift:125-205 | There is one pass result per pipeline, in order, and each is that pipeline's pass. |
| ContextSpec.CollectFailsIffSomeFails | Sources/ToucanSource/Bundle/SourceBundleRenderer.swift:125-206 | Collecting the passes fails exactly when one of them fails. |
| ContextSpec.UnknownEngineOnlyAssets | Sources/ToucanSource/Bundle/SourceBundleRenderer.swift:200-203 | When its assets resolve, a pipeline with an unknown engine contributes exactly its asset results. |
| ContextSpec.RenderFailsIffSomePipelineFails | Sources/ToucanSource/Bundle/SourceBundleRenderer.swift:111-207 | `render` throws exactly when some pipeline's pass throws. |
| SourceBundleRendering.SourceBundleRenderer.constructor | Sources/ToucanSource/Bundle/SourceBundleRenderer.swift:33 | A new renderer starts with an empty cache and satisfies the cache invariant. |
| SourceBundleRendering.SourceBundleRenderer.PropertiesOf | Sources/ToucanSource/Bundle/SourceBundleRenderer.swift:398-424 | The properties loop builds exactly the `properties` category. |
| SourceBundleRendering.SourceBundleRenderer.GetContentContext | Sources/ToucanSource/Bundle/SourceBundleRenderer.swift:358-534 | A request returns the content's context under the scope's allow-list. On a miss this is the source's behaviour; on a hit it is the corrected one (as written a hit skips the allow-list, see `ContextSpec.CacheHitSkipsAllowList`). A hit leaves the cache unchanged. A miss caches the raw context. Nothing cached before is changed. |
| SourceBundleRendering.SourceBundleRenderer.ComputeContext | Sources/ToucanSource/Bundle/SourceBundleRenderer.swift:394-526 | On a miss, the categories together give the raw context. |
| SourceBundleRendering.SourceBundleRenderer.ResolveList | Sources/ToucanSource/Bundle/SourceBundleRenderer.swift:279-288 | Mapping `getContentContext` over a list gives each item's context in order. |
| SourceBundleRendering.SourceBundleRenderer.ResolveRelations | Sources/ToucanSource/Bundle/SourceBundleRenderer.swift:465-500 | The relations loop builds exactly the `relations` category. |
| SourceBundleRendering.SourceBundleRenderer.ResolveQueries | Sources/ToucanSource/Bundle/SourceBundleRenderer.swift:502-526 | The sub-queries loop builds exactly the `queries` category. |
| SourceBundleRendering.SourceBundleRenderer.GetPipelineContext | Sources/ToucanSource/Bundle/SourceBundleRenderer.swift:242-268 | `getPipelineContext` returns the pipeline context, and the cache only grows. |
| SourceBundleRendering.SourceBundleRenderer.ResolvePipelineQueries | Sources/ToucanSource/Bundle/SourceBundleRenderer.swift:248-264 | The pipeline queries loop maps every query to its results' contexts. |
| SourceBundleRendering.SourceBundleRenderer.GetIteratorContext | Sources/ToucanSource/Bundle/SourceBundleRenderer.swift:270-300 | `getIteratorContext` returns the iterator context. |
| SourceBundleRendering.SourceBundleRenderer.GetContextBundle | Sources/ToucanSource/Bundle/SourceBundleRenderer.swift:302-356 | `getContextBundle` returns the bundle the specification describes. |
| SourceBundleRendering.SourceBundleRenderer.GetContextBundles | Sources/ToucanSource/Bundle/SourceBundleRenderer.swift:210-240 | `getContextBundles` returns one bundle per allowed content, in order. |
| SourceBundleRendering.SourceBundleRenderer.RenderPipeline | Sources/ToucanSource/Bundle/SourceBundleRenderer.swift:125-205 | One pipeline's pass returns its asset results followed by its engine's results, or fails when the asset step, asset resolution or the Mustache renderer's construction throws. |
| SourceBundleRendering.SourceBundleRenderer.Render | Sources/ToucanSource/Bundle/SourceBundleRenderer.swift:111-207 | `render` returns every pipeline's results in pipeline order, or fails when a pass fails. |
| ContextBundleToHtml.MakeRenderer | Sources/ToucanSource/Bundle/ContextBundleToHTMLRenderer.swift:19-32 | Construction succeeds exactly when every template parses. The renderer keeps the engine's `contentTypes` options. |
| ContextBundleToHtml.TemplateFor | Sources/ToucanSource/Bundle/ContextBundleToHTMLRenderer.swift:41-48 | The front matter's `template` wins. The content type's template applies only when the front matter names none. |
| ContextBundleToHtml.RenderBundle | Sources/ToucanSource/Bundle/ContextBundleToHTMLRenderer.swift:40-82 | A bundle yields a result exactly when its template is present and non-empty and Mustache gives non-empty HTML. The result is that HTML, written to the bundle's destination. |
| ContextBundleToHtml.RenderBundlesFromBundles | Sources/ToucanSource/Bundle/ContextBundleToHTMLRenderer.swift:34-38 | Every result comes from some bundle and keeps that bundle's destination. |
| ContextBundleToHtml.RenderBundlesKeepsAll | Sources/ToucanSource/Bundle/ContextBundleToHTMLRenderer.swift:34-38 | No bundle is dropped exactly when every bundle renders. The results then match the bundles position by position. |
| ContextBundleToHtml.RenderBundlesAppend | Sources/ToucanSource/Bundle/ContextBundleToHTMLRenderer.swift:34-38 | Rendering a concatenation of bundle lists renders each part in order. |
| Text.EscapeAngleBrackets | Sources/ToucanMarkdown/Markdown/HTMLVisitor.swift:16-26 | The escaped text has no angle brackets and is no shorter than the input. |
| Text.EscapeKeepsCleanText | Sources/ToucanMarkdown/Markdown/HTMLVisitor.swift:16-26 | Text without angle brackets is left unchanged. |
| Text.EscapeIdempotent | Sources/ToucanMarkdown/Markdown/HTMLVisitor.swift:16-26 | Escaping twice is escaping once. |
| Text.EscapeIsNotInjective | Sources/ToucanMarkdown/Markdown/HTMLVisitor.swift:16-26 | `&` is not escaped, so `<` and `&lt;` escape alike. |
| Text.EscapeIsEitherReplacementOrder | Sources/ToucanMarkdown/Markdown/HTMLVisitor.swift:17-25 | The dictionary-driven replacement gives the same text in either order of its two entries. |
| HtmlVisitor.VisitChildren | Sources/ToucanMarkdown/Markdown/HTMLVisitor.swift:69-77 | The children loop concatenates the children's renderings in order. |
| HtmlVisitor.RenderAllAppend | Sources/ToucanMarkdown/Markdown/HTMLVisitor.swift:69-77 | Rendering a concatenation of siblings concatenates their renderings. |
| HtmlVisitor.OrderedListStart | Sources/ToucanMarkdown/Markdown/HTMLVisitor.swift:129-150 | An ordered list opens with `start="n"` exactly when it starts after 1, and with a bare `<ol>` otherwise. |
| HtmlVisitor.ParagraphWrapping | Sources/ToucanMarkdown/Markdown/HTMLVisitor.swift:185-203 | A paragraph is wrapped in `<p>` exactly when it is neither inside a list nor the child of a directive that removes child paragraphs. Otherwise it is its bare children. As written, the parent removes them when its lower-cased name equals, as spelled, the name of any definition flagged `removesChildParagraph`. Corrected, the definition the parent resolves to carries the flag. |
| HtmlVisitor.RemovesChildParagraphMixedCase | Sources/ToucanMarkdown/Markdown/HTMLVisitor.swift:188-196 | With the one definition `Grid` flagged `removesChildParagraph`, the directive `@Grid` resolves to it. As written, a paragraph inside it renders as `<p>text</p>`. Corrected, it renders as the bare text. |
| HtmlVisitor.RemovesChildParagraphIgnoresCase | Sources/ToucanMarkdown/Markdown/HTMLVisitor.swift:188-196 | Corrected, the rule does not depend on how the parent directive's name is capitalised. |
| HtmlVisitor.MatchStyleSpec | Sources/ToucanMarkdown/Markdown/HTMLVisitor.swift:219-229 | No style is found exactly when no configured prefix plus `": "` starts the text. A found style is one whose prefix matches, with that prefix's length plus 2. |
| HtmlVisitor.FindStyle | Sources/ToucanMarkdown/Markdown/HTMLVisitor.swift:219-229 | The labelled nested loop finds the first matching style in order. |
| HtmlVisitor.ScanBlockQuote | Sources/ToucanMarkdown/Markdown/HTMLVisitor.swift:206-233 | The children loop computes the paragraph count, the other count and the last style found. |
| HtmlVisitor.ScanCounts | Sources/ToucanMarkdown/Markdown/HTMLVisitor.swift:212-233 | Every child is counted once, either as a paragraph or as another node. |
| HtmlVisitor.CalloutIff | Sources/ToucanMarkdown/Markdown/HTMLVisitor.swift:206-240 | A block quote is a callout exactly when its only child is a paragraph whose lower-cased text starts with a configured prefix. The style is that prefix's. |
| HtmlVisitor.BlockQuoteCallout | Sources/ToucanMarkdown/Markdown/HTMLVisitor.swift:241-253 | A block quote that is not a callout is a plain `blockquote` around its children. A callout is classed with its style. As written, its rendered children keep their first three characters and then lose the prefix's length. Corrected, that holds only when the paragraph kept its `<p>`; otherwise the prefix's length is dropped from the start. |
| HtmlVisitor.CalloutStripsPrefix | Sources/ToucanMarkdown/Markdown/HTMLVisitor.swift:241-253 | A callout renders as its paragraph without the prefix. Corrected this holds inside a list as well as outside. As written it holds wherever the paragraph keeps its `<p>`. |
| HtmlVisitor.CodeBlockAttributes | Sources/ToucanMarkdown/Markdown/HTMLVisitor.swift:260-267 | A code block without a language has no attributes. One with a language has exactly one attribute, `class`, whose value is `language-` plus the lower-cased language. |
| HtmlVisitor.CodeBlockWithoutMarkers | Sources/ToucanMarkdown/Markdown/HTMLVisitor.swift:256-284 | Code without highlight markers renders as its escaped text inside `<pre><code>`. |
| HtmlVisitor.HeadingAttributes | Sources/ToucanMarkdown/Markdown/HTMLVisitor.swift:286-301 | Second- and third-level headings get exactly one attribute, an `id` holding the slug of their lower-cased plain text. Every other level gets no attributes. |
| HtmlVisitor.LinkAttributes | Sources/ToucanMarkdown/Markdown/HTMLVisitor.swift:303-351 | A link without a destination has no attributes. Otherwise it gets `name` exactly for a `#[name]` anchor and `href` exactly otherwise. It gets `target="_blank"` exactly for a destination that is not relative, site or fragment. It gets no other attribute. |
| HtmlVisitor.LinkTargets | Sources/ToucanMarkdown/Markdown/HTMLVisitor.swift:308-334 | A named anchor never opens a new tab. A site path is resolved against the base URL with exactly one slash between them. |
| HtmlVisitor.ImageAttributes | Sources/ToucanMarkdown/Markdown/HTMLVisitor.swift:357-370 | An image gets `src` (the resolved asset) and `alt` (its plain text) first. After them it gets `title`, holding the image's title, exactly when it has one, and no other attribute. |
| HtmlVisitor.RenderImage | Sources/ToucanMarkdown/Markdown/HTMLVisitor.swift:353-379 | An image renders to nothing exactly when its source is missing or empty. Otherwise it renders as a short `<img>` element with those attributes. |
| HtmlVisitor.FindDefinition | Sources/ToucanMarkdown/Markdown/HTMLVisitor.swift:433-441 | A directive resolves to the first definition whose name equals its own ignoring case. It resolves to none exactly when no definition has such a name. |
| HtmlVisitor.FindDefinitionIgnoresCase | Sources/ToucanMarkdown/Markdown/HTMLVisitor.swift:433-435 | Resolution does not depend on how the directive's name is capitalised. |
| HtmlVisitor.FirstValue | Sources/ToucanMarkdown/Markdown/HTMLVisitor.swift:36-38 | `getFirstValueBy` is absent exactly when no argument has the name. Otherwise it is the value of the first argument with that name. |
| HtmlVisitor.BuildParameters | Sources/ToucanMarkdown/Markdown/HTMLVisitor.swift:443-461 | The parameters loop computes the parameter values. |
| HtmlVisitor.ParameterLabels | Sources/ToucanMarkdown/Markdown/HTMLVisitor.swift:443-461 | Every parameter value is keyed by a declared parameter's label. |
| HtmlVisitor.ParameterValue | Sources/ToucanMarkdown/Markdown/HTMLVisitor.swift:444-460 | An optional parameter takes the first argument with its label, else its default, else `""`. A required one is present exactly when an argument gives it, and then has that argument's value. |
| HtmlVisitor.TemplateParams | Sources/ToucanMarkdown/Markdown/HTMLVisitor.swift:463 | Each entry is `{{label}}` paired with that parameter's value. Every declared parameter that has a value has its entry. No token appears twice. |
| HtmlVisitor.OutputTokens | Sources/ToucanMarkdown/Markdown/HTMLVisitor.swift:477-486 | An output template's tokens contain `{{contents}}` paired with the rendered children, and no other entry for that token. A parameter labelled `contents` is overridden. Every other parameter keeps its entry, and no token appears twice. |
| HtmlVisitor.DirectiveResolution | Sources/ToucanMarkdown/Markdown/HTMLVisitor.swift:413-507 | A directive renders to something only when its arguments parse, its name resolves, its required parent encloses it, and it defines an output template or a tag. |
| HtmlVisitorExamples.BlockquoteNote | Tests/ToucanMarkdownTests/HTMLVisitorTestSuite.swift:164-176 | `> NOTE: text` renders as `<blockquote class="note"><p>text</p></blockquote>`. |
| HtmlVisitorExamples.CalloutInList | Sources/ToucanMarkdown/Markdown/HTMLVisitor.swift:241-245 | Inside a list the paragraph has no `<p>`. As written, the block quote keeps `NOT` and loses three characters of the text. Corrected, it holds the text after the prefix. |
| HtmlVisitorExamples.CalloutInListAsWritten | Sources/ToucanMarkdown/Markdown/HTMLVisitor.swift:241-245 | Under the suite's configuration, `- > NOTE: hello` renders as a `note` block quote around `NOTlo`. Corrected, it renders around `hello`. |
| HtmlVisitorExamples.ContentsOverridesParameter | Sources/ToucanMarkdown/Markdown/HTMLVisitor.swift:477-486 | A `box` directive with output `{{contents}}` and an optional `contents` parameter defaulting to `P` renders its child `C` as `C`. |
| HtmlVisitorExamples.OrderedListWithStartIndex | Tests/ToucanMarkdownTests/HTMLVisitorTestSuite.swift:358-370 | A list starting at 2 opens with `<ol start="2">`. |
| HtmlVisitorExamples.LinkDestinations | Tests/ToucanMarkdownTests/HTMLVisitorTestSuite.swift:442-492 | The attributes of `/foo`, `foo/bar` and `#[name]anchor` are those the suite expects. |
| HtmlVisitorExamples.InlineCodeIsEscaped | Tests/ToucanMarkdownTests/HTMLVisitorTestSuite.swift:689-699 | `` `<head>` `` renders as `<code>&lt;head&gt;</code>`. |

## Left out

**Collaborators: libraries whose code is not part of this model.** They are function-valued parameters, and nothing beyond their types is assumed, except `Model.RunSelects`. They are:
- the query engine (`run`, `resolveFilterParameters`);
- scope lookup, content-type filtering, date formatting and formatters, permalinks;
- `ContentRenderer` (Markdown to HTML with transformers, reading time, outline);
- `ContentFilter`, `ContentIteratorResolver`, `AssetBehaviorExecutor`, `AssetPropertyResolver`;
- `ContextBundleToJSONRenderer`, the Mustache library;
- `slugify`, `resolveAsset`, `parseNameValueArguments`.

**Runtime effects**
- Logging is left out. The warnings and errors the source logs on its failure paths change no result.
- Dictionary iteration order: `paragraphStyles`, the replacement dictionaries and the directive template parameters are dictionaries in the source. They are sequences here, iterated in sequence order.
  - `EscapeIsEitherReplacementOrder` shows that order does not matter for escaping.
  - `MatchStyleSpec` states the style search without depending on order.
  - `HtmlVisitor.Highlight` applies `/*!*/` before `/*.*/`. That order is chosen. It matters only where the markers overlap, as in `/*.*/*!*/`.
- `Text.Lower` lower-cases ASCII letters only. Swift's `lowercased()` also maps other Unicode letters and can change a string's length. This affects every member that uses `Text.Lower`:
  - `HtmlVisitor.PrefixMatches`, `MatchStyle` and `Callout`: callout detection;
  - `HtmlVisitor.FindDefinition` and `ParentSatisfied`: directive resolution and the parent check;
  - `HtmlVisitor.RemovesChildParagraphAsWritten` and `RemovesChildParagraph`;
  - `HtmlVisitor.HeadingAttributes` and `CodeBlockAttributes`: heading ids and the language class.
- Numbers and dates: a `Double` is modelled as an integer, and timestamps are whole seconds. Date-format output is produced by a collaborator.
- Merging: `recursivelyMerged(with:)` is modelled as a right-biased union of mappings (`Model.Merge`).
  - Most of the renderer's merges are between mappings with disjoint keys, or into an empty mapping.
  - Where `getSiteContext` merges user-defined fields named like a built-in key, nested mappings are not merged recursively here.

**Cache key and `currentSlug`**
- The cache key is modelled as a tuple of pipeline id, slug, scope key and `allowSubQueries`. The source joins them with `_` into one string, so two different tuples whose parts contain `_` can share a string key. That collision is not modelled.
- The `currentSlug` parameter is dropped. The source only passes it along, and the line that used it is commented out.

**Termination and cache-coherence preconditions**
- `SourceBundleRendering.SourceBundleRenderer.Render`: requires that pipeline ids are distinct. It also requires that each pipeline's prepared contents have unique slugs and that listing-page items are among the contents. The source does not check these. The cache, keyed by pipeline id and slug, returns another content's context when they fail.
  - It also requires that no pipeline id has a recorded pass yet, so the model covers one `render` per renderer. The source's `render(now:)` can be called again on the same renderer. The cache persists (SourceBundleRenderer.swift:33), so a second call serves contexts from the earlier pass out of the slug-keyed cache.
  - Listing-page items are taken from the contents before asset resolution (SourceBundleRenderer.swift:143-146). The requirement is stated of the contents after it (`ContextSpec.PipelineSession`).
  - A run in which asset resolution changes a content that some listing page lists is therefore outside the model. In such a run the slug-keyed cache serves whichever version of that content was cached first.
- `SourceBundleRendering.SourceBundleRenderer.GetContentContext`: on a cache hit it returns the cached context under the scope's allow-list. This is the corrected behaviour of the first Findings row. The source returns the cached raw context unfiltered (SourceBundleRenderer.swift:390-391). The as-written step is `ContextSpec.CacheStepAsWritten`, and `ContextSpec.CacheHitSkipsAllowList` shows where the two differ.
- `SourceBundleRendering.SourceBundleRenderer.GetContentContext`: requires that the `"reference"` scope of no content type enables relations (`ContextSpec.ReferenceExcludesRelations`). Without that, relation resolution can recurse without end in the source. The model states this as the termination condition rather than modelling divergence.

## Findings

| source | as written | input that shows it | evidently intended | confidence | as-written member | corrected member |
|---|---|---|---|---|---|---|
| Sources/ToucanSource/Bundle/SourceBundleRenderer.swift:390-392 | A cache hit returns the stored raw context without applying the scope's field allow-list. The miss path at 528-533 applies it. | Two identical requests for a content with fields `title` and `body`, under a scope whose fields are `["title"]`. The first returns `title` only; the second also returns `body`. | A hit returns the cached context under the allow-list, as a miss does. | not executed; high | ContextSpec.CacheHitSkipsAllowList | ContextSpec.CacheStepStable |
| Sources/ToucanMarkdown/Markdown/HTMLVisitor.swift:241-245 | The callout cut keeps the first three characters, assuming a `<p>` tag, and then drops the prefix. Inside a list the paragraph is rendered without `<p>` (198-200). | `- > NOTE: hello` renders as `<blockquote class="note">NOTlo</blockquote>`. | `<blockquote class="note">hello</blockquote>`. | not executed; high | HtmlVisitorExamples.CalloutInListAsWritten | HtmlVisitor.CalloutStripsPrefix |
| Sources/ToucanMarkdown/Markdown/HTMLVisitor.swift:188-196 | The parent directive's lower-cased name is compared with the configured names as spelled, while the directive itself is resolved ignoring case (433-435). | A directive defined as `Grid` with `removesChildParagraph: true` renders, but the paragraphs inside it keep their `<p>`. | Child paragraphs are unwrapped whatever the capitalisation of the definition's name. | not executed; medium | HtmlVisitor.RemovesChildParagraphMixedCase | HtmlVisitor.RemovesChildParagraphIgnoresCase |
