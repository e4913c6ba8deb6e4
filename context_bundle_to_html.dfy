/**
 * `ContextBundleToHTMLRenderer`: picks the Mustache template of each context
 * bundle (the content's own `template`, else its content type's), renders the
 * bundle's context with it and keeps the non-empty results, each written to
 * the bundle's destination.
 */
module ContextBundleToHtml {
  import opened Wrappers
  import opened Model

  /** A constructed renderer: the Mustache library and the engine's `contentTypes` options. */
  datatype HtmlRenderer = HtmlRenderer(mustache: (string, Context) -> Option<string>, contentTypesOptions: Context)

  /**
   * `init(pipeline:templates:logger:)`: every template is parsed, and the
   * initializer throws (here `None`) when one of them does not parse.
   */
  function MakeRenderer(co: Collaborators, p: Pipeline, templates: map<string, string>): (r: Option<HtmlRenderer>)
    ensures r.Some? <==> forall id :: id in templates ==> co.parsesTemplate(templates[id])
    ensures r.Some? ==> r.value.contentTypesOptions == Dict(p.engine.options, "contentTypes")
  {
    if forall id | id in templates :: co.parsesTemplate(templates[id]) then
      Some(HtmlRenderer(co.mustache, Dict(p.engine.options, "contentTypes")))
    else
      None
  }

  /**
   * The template a bundle asks for: its front matter's `template` wins; the
   * content type's applies only when the front matter names none.
   */
  function TemplateFor(r: HtmlRenderer, b: ContextBundle): (t: Option<string>)
    ensures "template" in b.content.frontMatter && b.content.frontMatter["template"].Str?
      ==> t == Some(b.content.frontMatter["template"].s)
    ensures !("template" in b.content.frontMatter && b.content.frontMatter["template"].Str?)
      ==> t == StringAt(Dict(r.contentTypesOptions, b.content.definition.id), "template")
  {
    var contentTemplate := StringAt(b.content.frontMatter, "template");
    var typeTemplate := StringAt(Dict(r.contentTypesOptions, b.content.definition.id), "template");
    contentTemplate.OrElse(typeTemplate)
  }

  /** A bundle renders when its template is named and non-empty and the Mustache result is non-empty. */
  ghost predicate Renders(r: HtmlRenderer, b: ContextBundle) {
    var t := TemplateFor(r, b);
    t.Some? && t.value != "" && r.mustache(t.value, b.context).Some? && r.mustache(t.value, b.context).value != ""
  }

  /** `render(_ contextBundle:)` */
  function RenderBundle(r: HtmlRenderer, b: ContextBundle): (res: Option<PipelineResult>)
    ensures res.Some? <==> Renders(r, b)
    ensures (TemplateFor(r, b).None? || TemplateFor(r, b) == Some("")) ==> res.None?
    ensures res.Some? ==> res.value.destination == b.destination
    ensures res.Some? ==> res.value.source == ContentSource(r.mustache(TemplateFor(r, b).value, b.context).value)
    ensures res.Some? ==> res.value.source.value != ""
  {
    match TemplateFor(r, b)
    case None => None
    case Some(template) =>
      if template == "" then None
      else
        match r.mustache(template, b.context)
        case None => None
        case Some(html) =>
          if html == "" then None
          else Some(PipelineResult(ContentSource(html), b.destination))
  }

  /** `render(_ contextBundles:)`: `compactMap` of the single-bundle render. */
  function RenderBundles(r: HtmlRenderer, bs: seq<ContextBundle>): (res: seq<PipelineResult>)
    ensures |res| <= |bs|
  {
    if bs == [] then []
    else
      var last := RenderBundle(r, bs[|bs| - 1]);
      RenderBundles(r, bs[..|bs| - 1]) + (if last.Some? then [last.value] else [])
  }

  /** Rendering a concatenation renders each part, in order. */
  lemma {:induction false} RenderBundlesAppend(r: HtmlRenderer, a: seq<ContextBundle>, b: seq<ContextBundle>)
    ensures RenderBundles(r, a + b) == RenderBundles(r, a) + RenderBundles(r, b)
    decreases |b|
  {
    if b == [] {
      assert a + b == a;
    } else {
      var b' := b[..|b| - 1];
      assert (a + b)[..|a + b| - 1] == a + b';
      assert (a + b)[|a + b| - 1] == b[|b| - 1];
      RenderBundlesAppend(r, a, b');
    }
  }

  /** Every result comes from one of the bundles, with that bundle's destination. */
  lemma {:induction false} RenderBundlesFromBundles(r: HtmlRenderer, bs: seq<ContextBundle>)
    ensures forall x :: x in RenderBundles(r, bs) ==>
      exists i :: 0 <= i < |bs| && RenderBundle(r, bs[i]) == Some(x) && x.destination == bs[i].destination
    decreases |bs|
  {
    if bs != [] {
      var init := bs[..|bs| - 1];
      RenderBundlesFromBundles(r, init);
      forall x | x in RenderBundles(r, bs)
        ensures exists i :: 0 <= i < |bs| && RenderBundle(r, bs[i]) == Some(x) && x.destination == bs[i].destination
      {
        if x in RenderBundles(r, init) {
          var i :| 0 <= i < |init| && RenderBundle(r, init[i]) == Some(x) && x.destination == init[i].destination;
          assert bs[i] == init[i];
        } else {
          assert RenderBundle(r, bs[|bs| - 1]) == Some(x);
        }
      }
    }
  }

  /**
   * No bundle is dropped exactly when every bundle renders, and then the
   * results are the bundles' results position by position.
   */
  lemma {:induction false} RenderBundlesKeepsAll(r: HtmlRenderer, bs: seq<ContextBundle>)
    ensures |RenderBundles(r, bs)| == |bs| <==> forall i :: 0 <= i < |bs| ==> Renders(r, bs[i])
    ensures |RenderBundles(r, bs)| == |bs| ==>
      forall i :: 0 <= i < |bs| ==> RenderBundle(r, bs[i]) == Some(RenderBundles(r, bs)[i])
    decreases |bs|
  {
    if bs != [] {
      var init := bs[..|bs| - 1];
      RenderBundlesKeepsAll(r, init);
      assert forall i :: 0 <= i < |init| ==> bs[i] == init[i];
      if |RenderBundles(r, bs)| == |bs| {
        assert |RenderBundles(r, init)| == |init|;
      }
    }
  }
}
