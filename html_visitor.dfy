/**
 * HTMLVisitor.swift: renders a Markdown tree to HTML. The visitor is a pure
 * recursive function of the node and of the node's ancestors (the source asks
 * `parent` and `isInsideList`; here the chain of ancestors is passed down).
 */
module HtmlVisitor {
  import opened Wrappers
  import opened Text
  import opened Html
  import opened Markdown

  // ---------------------------------------------------------------------
  // Configuration

  /** A named argument of a block directive, `@Name(label: value)`. */
  datatype Argument = Argument(name: string, value: string)

  /** The result of `parseNameValueArguments`: the arguments and the parse errors. */
  datatype ParsedArguments = ParsedArguments(arguments: seq<Argument>, errors: seq<string>)

  datatype Parameter = Parameter(key: string, required: Option<bool>, default: Option<string>)

  datatype DirectiveAttribute = DirectiveAttribute(name: string, value: string)

  /** A `MarkdownBlockDirective` definition. */
  datatype DirectiveDefinition = DirectiveDefinition(
    name: string,
    parameters: Option<seq<Parameter>>,
    requiresParentDirective: Option<string>,
    removesChildParagraph: Option<bool>,
    tag: Option<string>,
    attributes: Option<seq<DirectiveAttribute>>,
    output: Option<string>)

  /**
   * The visitor's stored properties. `paragraphStyles` is a dictionary in the
   * source; its iteration order is the order of the sequence here.
   * `slugify`, `resolveAsset` (source, baseURL, assetsPath, slug) and the
   * directive argument parser belong to other libraries and are parameters.
   * `variant` chooses between the visitor as written and the visitor with the
   * two corrections of the paragraph and callout rules.
   */
  datatype Config = Config(
    directives: seq<DirectiveDefinition>,
    paragraphStyles: seq<(string, seq<string>)>,
    slug: string,
    assetsPath: string,
    baseURL: string,
    slugify: string -> string,
    resolveAsset: (string, string, string, string) -> string,
    parseArguments: string -> ParsedArguments,
    variant: Variant)

  /**
   * `AsWritten` renders what the source renders; `Corrected` resolves a
   * paragraph's parent directive as the directive itself is resolved, and
   * cuts a callout's prefix without assuming a `<p>` tag.
   */
  datatype Variant = AsWritten | Corrected

  // ---------------------------------------------------------------------
  // The visitor

  function Render(cfg: Config, n: Node, ancestors: seq<Ancestor>): string
    decreases n, 3
  {
    var inner := ancestors + [KindOf(n)];
    match n
    case Document(cs) => RenderAll(cfg, cs, inner)
    case Text(t) => t
    case HtmlBlock(h) => h
    case InlineHtml(h) => h
    case SoftBreak => ShortElement("br", [])
    case LineBreak => ShortElement("br", [])
    case ThematicBreak => ShortElement("hr", [])
    case ListItem(cs) => Element("li", [], RenderAll(cfg, cs, inner))
    case OrderedList(start, cs) => Element("ol", OrderedListAttributes(start), RenderAll(cfg, cs, inner))
    case UnorderedList(cs) => Element("ul", [], RenderAll(cfg, cs, inner))
    case InlineCode(code) => Element("code", [], EscapeAngleBrackets(code))
    case Emphasis(cs) => Element("em", [], RenderAll(cfg, cs, inner))
    case Strong(cs) => Element("strong", [], RenderAll(cfg, cs, inner))
    case Strikethrough(cs) => Element("s", [], RenderAll(cfg, cs, inner))
    case Paragraph(cs) =>
      if ParagraphWrapped(cfg, ancestors) then Element("p", [], RenderAll(cfg, cs, inner))
      else RenderAll(cfg, cs, inner)
    case BlockQuote(cs) => RenderBlockQuote(cfg, cs, ancestors)
    case CodeBlock(language, code) =>
      Element("pre", [], Element("code", CodeBlockAttributes(language), Highlight(EscapeAngleBrackets(code))))
    case Heading(level, cs) =>
      Element("h" + NatToString(level), HeadingAttributes(cfg, level, cs), EscapeAngleBrackets(RenderAll(cfg, cs, inner)))
    case Link(destination, cs) => Element("a", LinkAttributes(cfg.baseURL, destination), RenderAll(cfg, cs, inner))
    case Image(source, title, cs) => RenderImage(cfg, source, title, cs)
    case Table(cs) => Element("table", [], RenderAll(cfg, cs, inner))
    case TableHead(cs) => Element("thead", [], RenderAll(cfg, cs, inner))
    case TableBody(cs) => Element("tbody", [], RenderAll(cfg, cs, inner))
    case TableRow(cs) => Element("tr", [], RenderAll(cfg, cs, inner))
    case TableCell(cs) => Element("td", [], RenderAll(cfg, cs, inner))
    case BlockDirective(name, argumentText, cs) => RenderDirective(cfg, name, argumentText, cs, ancestors)
    case Other(cs) => RenderAll(cfg, cs, inner)
  }

  /** `visit(_ children:)`: the children's renderings, concatenated in order. */
  function RenderAll(cfg: Config, cs: seq<Node>, ancestors: seq<Ancestor>): string
    decreases cs, 0
  {
    if cs == [] then "" else Render(cfg, cs[0], ancestors) + RenderAll(cfg, cs[1..], ancestors)
  }

  /** The loop of `visit(_ children:)`. */
  method VisitChildren(cfg: Config, cs: seq<Node>, ancestors: seq<Ancestor>) returns (result: string)
    ensures result == RenderAll(cfg, cs, ancestors)
  {
    result := "";
    for i := 0 to |cs|
      invariant result == RenderAll(cfg, cs[..i], ancestors)
    {
      RenderAllAppend(cfg, cs[..i], [cs[i]], ancestors);
      assert cs[..i] + [cs[i]] == cs[..i + 1];
      result := result + Render(cfg, cs[i], ancestors);
    }
    assert cs[..|cs|] == cs;
  }

  /** Rendering a concatenation of siblings concatenates their renderings. */
  lemma {:induction false} RenderAllAppend(cfg: Config, a: seq<Node>, b: seq<Node>, ancestors: seq<Ancestor>)
    ensures RenderAll(cfg, a + b, ancestors) == RenderAll(cfg, a, ancestors) + RenderAll(cfg, b, ancestors)
    decreases |a|
  {
    if a == [] {
      assert a + b == b;
    } else {
      assert (a + b)[0] == a[0];
      assert (a + b)[1..] == a[1..] + b;
      RenderAllAppend(cfg, a[1..], b, ancestors);
    }
  }

  // ---------------------------------------------------------------------
  // Lists and paragraphs

  function OrderedListAttributes(start: nat): seq<Attribute> {
    if start > 1 then [Attribute("start", NatToString(start))] else []
  }

  /** An element's text starts with its opening tag. */
  lemma ElementStart(name: string, attributes: seq<Attribute>, contents: string)
    ensures StartsWith(Element(name, attributes, contents), "<" + name + AttributesText(attributes) + ">")
  {
    var head := "<" + name + AttributesText(attributes) + ">";
    var r := Element(name, attributes, contents);
    assert r == head + (contents + "</" + name + ">");
    assert r[..|head|] == head;
  }

  /** An ordered list renders as an `ol` element around its items. */
  lemma RenderOrderedList(cfg: Config, start: nat, cs: seq<Node>, ancestors: seq<Ancestor>)
    ensures Render(cfg, OrderedList(start, cs), ancestors)
      == Element("ol", OrderedListAttributes(start), RenderAll(cfg, cs, ancestors + [ListContainer]))
  {
  }

  /** The opening tag of an ordered list: with `start` exactly when it starts after 1. */
  lemma OrderedListOpeningTag(start: nat)
    ensures start > 1 ==> "<" + "ol" + AttributesText(OrderedListAttributes(start)) + ">" == "<ol start=\"" + NatToString(start) + "\">"
    ensures start <= 1 ==> "<" + "ol" + AttributesText(OrderedListAttributes(start)) + ">" == "<ol>"
  {
    if start > 1 {
      AttributesTextSingle(Attribute("start", NatToString(start)));
    }
  }

  /** An ordered list carries `start` exactly when it starts after 1. */
  lemma OrderedListStart(cfg: Config, start: nat, cs: seq<Node>, ancestors: seq<Ancestor>)
    ensures var r := Render(cfg, OrderedList(start, cs), ancestors);
      (start > 1 ==> StartsWith(r, "<ol start=\"" + NatToString(start) + "\">"))
      && (start <= 1 ==> StartsWith(r, "<ol>"))
  {
    var body := RenderAll(cfg, cs, ancestors + [ListContainer]);
    RenderOrderedList(cfg, start, cs, ancestors);
    ElementStart("ol", OrderedListAttributes(start), body);
    OrderedListOpeningTag(start);
  }

  /**
   * The name of a directive that renders its child paragraphs without `<p>`
   * (as written: the parent's lower-cased name is looked up among the
   * configured names exactly as they are spelled).
   */
  predicate RemovesChildParagraphAsWritten(directives: seq<DirectiveDefinition>, ancestors: seq<Ancestor>) {
    match ParentDirective(ancestors)
    case None => false
    case Some(name) =>
      exists d :: d in directives && d.removesChildParagraph.GetOr(false) && d.name == Lower(name)
  }

  /**
   * The paragraph's parent directive, resolved the way the directive itself
   * is rendered (case-insensitively), removes child paragraphs.
   */
  predicate RemovesChildParagraph(directives: seq<DirectiveDefinition>, ancestors: seq<Ancestor>) {
    match ParentDirective(ancestors)
    case None => false
    case Some(name) =>
      match FindDefinition(directives, name)
      case None => false
      case Some(d) => d.removesChildParagraph.GetOr(false)
  }

  /** The first exception of `visitParagraph`, under the configured variant. */
  predicate UnwrapsChildParagraphs(cfg: Config, ancestors: seq<Ancestor>) {
    match cfg.variant
    case AsWritten => RemovesChildParagraphAsWritten(cfg.directives, ancestors)
    case Corrected => RemovesChildParagraph(cfg.directives, ancestors)
  }

  /** `visitParagraph` wraps the children in `<p>` unless one of its two exceptions applies. */
  predicate ParagraphWrapped(cfg: Config, ancestors: seq<Ancestor>) {
    !UnwrapsChildParagraphs(cfg, ancestors) && !InsideList(ancestors)
  }

  /** A paragraph is wrapped in `<p>` exactly when neither exception applies. */
  lemma ParagraphWrapping(cfg: Config, cs: seq<Node>, ancestors: seq<Ancestor>)
    ensures var body := RenderAll(cfg, cs, ancestors + [OtherMarkup]);
      var r := Render(cfg, Paragraph(cs), ancestors);
      (ParagraphWrapped(cfg, ancestors) <==> r == "<p>" + body + "</p>")
      && (!ParagraphWrapped(cfg, ancestors) <==> r == body)
  {
    var body := RenderAll(cfg, cs, ancestors + [OtherMarkup]);
    ParagraphRender(cfg, cs, ancestors);
    assert |"<p>" + body + "</p>"| != |body|;
  }

  /**
   * As written, a directive whose name has upper-case letters never unwraps
   * its paragraphs: a paragraph inside `@Grid`, defined as `Grid` with
   * `removesChildParagraph`, keeps its `<p>`; corrected it loses it.
   */
  lemma RemovesChildParagraphMixedCase(cfg: Config, t: string)
    requires cfg.directives == [DirectiveDefinition("Grid", None, None, Some(true), Some("div"), None, None)]
    ensures FindDefinition(cfg.directives, "Grid") == Some(cfg.directives[0])
    ensures !RemovesChildParagraphAsWritten(cfg.directives, [Directive("Grid")])
    ensures RemovesChildParagraph(cfg.directives, [Directive("Grid")])
    ensures cfg.variant.AsWritten? ==> Render(cfg, Paragraph([Text(t)]), [Directive("Grid")]) == "<p>" + t + "</p>"
    ensures cfg.variant.Corrected? ==> Render(cfg, Paragraph([Text(t)]), [Directive("Grid")]) == t
  {
    var grid := cfg.directives[0];
    assert Lower("Grid") == "grid";
    assert Lower("Grid") != "Grid";
    assert FindDefinition([grid], "Grid") == Some(grid);
    assert !InsideList([Directive("Grid")]);
    ParagraphRender(cfg, [Text(t)], [Directive("Grid")]);
    RenderSingle(cfg, Text(t), [Directive("Grid")] + [OtherMarkup]);
  }

  /** The corrected rule does not depend on how the parent directive's name is spelled. */
  lemma RemovesChildParagraphIgnoresCase(directives: seq<DirectiveDefinition>, ancestors: seq<Ancestor>, a: string, b: string)
    requires Lower(a) == Lower(b)
    ensures RemovesChildParagraph(directives, ancestors + [Directive(a)])
        == RemovesChildParagraph(directives, ancestors + [Directive(b)])
  {
    FindDefinitionIgnoresCase(directives, a, b);
    assert ParentDirective(ancestors + [Directive(a)]) == Some(a);
    assert ParentDirective(ancestors + [Directive(b)]) == Some(b);
  }

  // ---------------------------------------------------------------------
  // Block quotes and callouts

  /** `"\(prefix): ".lowercased()` is a prefix of the lower-cased paragraph text. */
  predicate PrefixMatches(text: string, prefix: string) {
    StartsWith(text, Lower(prefix + ": "))
  }

  /** The inner loop: the first prefix that matches, with the length to drop. */
  function MatchPrefix(prefixes: seq<string>, text: string): Option<nat> {
    if prefixes == [] then None
    else if PrefixMatches(text, prefixes[0]) then Some(|prefixes[0]| + 2)
    else MatchPrefix(prefixes[1..], text)
  }

  /** The labelled `typeLoop`: the first style with a matching prefix. */
  function MatchStyle(styles: seq<(string, seq<string>)>, text: string): Option<(string, nat)> {
    if styles == [] then None
    else match MatchPrefix(styles[0].1, text)
      case Some(n) => Some((styles[0].0, n))
      case None => MatchStyle(styles[1..], text)
  }

  /** A prefix match is found exactly when some listed prefix matches. */
  lemma {:induction false} MatchPrefixSpec(prefixes: seq<string>, text: string)
    ensures MatchPrefix(prefixes, text).None? <==> forall j :: 0 <= j < |prefixes| ==> !PrefixMatches(text, prefixes[j])
    ensures MatchPrefix(prefixes, text).Some? ==>
      exists j :: 0 <= j < |prefixes| && PrefixMatches(text, prefixes[j])
        && MatchPrefix(prefixes, text).value == |prefixes[j]| + 2
  {
    if prefixes != [] {
      MatchPrefixSpec(prefixes[1..], text);
      if !PrefixMatches(text, prefixes[0]) {
        forall j | 0 <= j < |prefixes| && j != 0 ensures prefixes[j] == prefixes[1..][j - 1] { }
        if MatchPrefix(prefixes, text).Some? {
          var j :| 0 <= j < |prefixes[1..]| && PrefixMatches(text, prefixes[1..][j])
            && MatchPrefix(prefixes[1..], text).value == |prefixes[1..][j]| + 2;
          assert prefixes[j + 1] == prefixes[1..][j];
        }
      }
    }
  }

  /**
   * The style found names a configured type one of whose prefixes matches,
   * with the length of that prefix plus `": "`; no style is found exactly
   * when no configured prefix matches.
   */
  lemma {:induction false} MatchStyleSpec(styles: seq<(string, seq<string>)>, text: string)
    ensures MatchStyle(styles, text).None? <==>
      forall i, j :: 0 <= i < |styles| && 0 <= j < |styles[i].1| ==> !PrefixMatches(text, styles[i].1[j])
    ensures MatchStyle(styles, text).Some? ==>
      exists i, j :: 0 <= i < |styles| && 0 <= j < |styles[i].1| && PrefixMatches(text, styles[i].1[j])
        && MatchStyle(styles, text).value == (styles[i].0, |styles[i].1[j]| + 2)
  {
    if styles != [] {
      MatchPrefixSpec(styles[0].1, text);
      MatchStyleSpec(styles[1..], text);
      match MatchPrefix(styles[0].1, text)
      case Some(n) =>
        var j :| 0 <= j < |styles[0].1| && PrefixMatches(text, styles[0].1[j]) && n == |styles[0].1[j]| + 2;
        assert MatchStyle(styles, text).value == (styles[0].0, |styles[0].1[j]| + 2);
      case None =>
        forall i | 1 <= i < |styles| ensures styles[i] == styles[1..][i - 1] { }
        if MatchStyle(styles, text).Some? {
          var i, j :| 0 <= i < |styles[1..]| && 0 <= j < |styles[1..][i].1| && PrefixMatches(text, styles[1..][i].1[j])
            && MatchStyle(styles[1..], text).value == (styles[1..][i].0, |styles[1..][i].1[j]| + 2);
          assert styles[i + 1] == styles[1..][i];
        }
    }
  }

  /** The nested loops with the labelled break, over the styles in order. */
  method FindStyle(styles: seq<(string, seq<string>)>, text: string) returns (style: Option<(string, nat)>)
    ensures style == MatchStyle(styles, text)
  {
    style := None;
    var i := 0;
    label typeLoop: while i < |styles|
      invariant 0 <= i <= |styles|
      invariant style.None?
      invariant MatchStyle(styles, text) == MatchStyle(styles[i..], text)
    {
      var prefixes := styles[i].1;
      var j := 0;
      while j < |prefixes|
        invariant 0 <= j <= |prefixes|
        invariant MatchPrefix(prefixes, text) == MatchPrefix(prefixes[j..], text)
      {
        var fullPrefix := Lower(prefixes[j] + ": ");
        if StartsWith(text, fullPrefix) {
          style := Some((styles[i].0, |fullPrefix|));
          assert MatchPrefix(prefixes[j..], text) == Some(|prefixes[j]| + 2);
          assert styles[i..][0] == styles[i];
          return;
        }
        assert prefixes[j..][1..] == prefixes[j + 1..];
        j := j + 1;
      }
      assert styles[i..][0] == styles[i];
      assert styles[i..][1..] == styles[i + 1..];
      i := i + 1;
    }
  }

  /** What the scan of a block quote's children has counted and found so far. */
  datatype QuoteScan = QuoteScan(paragraphs: nat, others: nat, style: Option<(string, nat)>)

  /** One child: a paragraph is counted and its text matched (a later match wins); anything else is counted apart. */
  function ScanStep(styles: seq<(string, seq<string>)>, acc: QuoteScan, child: Node): QuoteScan {
    if child.Paragraph? then
      QuoteScan(acc.paragraphs + 1, acc.others, MatchStyle(styles, Lower(PlainText(child))).OrElse(acc.style))
    else QuoteScan(acc.paragraphs, acc.others + 1, acc.style)
  }

  function ScanFrom(styles: seq<(string, seq<string>)>, acc: QuoteScan, cs: seq<Node>): QuoteScan
    decreases |cs|
  {
    if cs == [] then acc else ScanFrom(styles, ScanStep(styles, acc, cs[0]), cs[1..])
  }

  /** The loop at the head of `visitBlockQuote`. */
  method ScanBlockQuote(styles: seq<(string, seq<string>)>, cs: seq<Node>)
    returns (paragraphCount: nat, otherCount: nat, style: Option<(string, nat)>)
    ensures QuoteScan(paragraphCount, otherCount, style) == ScanFrom(styles, QuoteScan(0, 0, None), cs)
  {
    paragraphCount, otherCount, style := 0, 0, None;
    for i := 0 to |cs|
      invariant ScanFrom(styles, QuoteScan(0, 0, None), cs)
        == ScanFrom(styles, QuoteScan(paragraphCount, otherCount, style), cs[i..])
    {
      assert cs[i..][0] == cs[i];
      assert cs[i..][1..] == cs[i + 1..];
      if cs[i].Paragraph? {
        paragraphCount := paragraphCount + 1;
        var found := FindStyle(styles, Lower(PlainText(cs[i])));
        if found.Some? {
          style := found;
        }
      } else {
        otherCount := otherCount + 1;
      }
    }
  }

  /** The scan counts every child once, as a paragraph or as something else. */
  lemma {:induction false} ScanCounts(styles: seq<(string, seq<string>)>, acc: QuoteScan, cs: seq<Node>)
    ensures var r := ScanFrom(styles, acc, cs);
      r.paragraphs >= acc.paragraphs && r.others >= acc.others
      && r.paragraphs + r.others == acc.paragraphs + acc.others + |cs|
    decreases |cs|
  {
    if cs != [] {
      ScanCounts(styles, ScanStep(styles, acc, cs[0]), cs[1..]);
    }
  }

  /** The guard of `visitBlockQuote`: a style was found, and the only child is one paragraph. */
  function Callout(cfg: Config, cs: seq<Node>): Option<(string, nat)> {
    var scan := ScanFrom(cfg.paragraphStyles, QuoteScan(0, 0, None), cs);
    if scan.style.Some? && scan.others == 0 && scan.paragraphs == 1 then scan.style else None
  }

  /**
   * A block quote is a callout exactly when it holds a single paragraph whose
   * lower-cased plain text starts with a configured prefix; the style is
   * then the one that prefix belongs to.
   */
  lemma CalloutIff(cfg: Config, cs: seq<Node>)
    ensures Callout(cfg, cs).Some? <==>
      |cs| == 1 && cs[0].Paragraph? && MatchStyle(cfg.paragraphStyles, Lower(PlainText(cs[0]))).Some?
    ensures Callout(cfg, cs).Some? ==> Callout(cfg, cs) == MatchStyle(cfg.paragraphStyles, Lower(PlainText(cs[0])))
  {
    var start := QuoteScan(0, 0, None);
    ScanCounts(cfg.paragraphStyles, start, cs);
    if |cs| >= 1 {
      var first := ScanStep(cfg.paragraphStyles, start, cs[0]);
      ScanCounts(cfg.paragraphStyles, first, cs[1..]);
      if |cs| == 1 {
        assert cs[1..] == [];
      }
    }
  }

  /** As written: three characters (the `<p>` tag) are kept, then the prefix is dropped. */
  function CalloutContentsAsWritten(paragraph: string, dropCount: nat): string {
    Take(paragraph, 3) + Drop(Drop(paragraph, 3), dropCount)
  }

  /** Keeps the `<p>` tag only when the paragraph was rendered with one. */
  function CalloutContents(paragraph: string, wrapped: bool, dropCount: nat): string {
    if wrapped then CalloutContentsAsWritten(paragraph, dropCount) else Drop(paragraph, dropCount)
  }

  function RenderBlockQuote(cfg: Config, cs: seq<Node>, ancestors: seq<Ancestor>): string
    decreases cs, 2
  {
    var inner := ancestors + [OtherMarkup];
    var contents := RenderAll(cfg, cs, inner);
    match Callout(cfg, cs)
    case None => Element("blockquote", [], contents)
    case Some(found) =>
      Element("blockquote", [Attribute("class", found.0)], CalloutContents(contents, KeepsTag(cfg, inner), found.1))
  }

  /** The callout cut keeps three characters for a `<p>` tag: always as written, only when there is one corrected. */
  predicate KeepsTag(cfg: Config, inner: seq<Ancestor>) {
    cfg.variant.AsWritten? || ParagraphWrapped(cfg, inner)
  }

  lemma RenderSingle(cfg: Config, n: Node, ancestors: seq<Ancestor>)
    ensures RenderAll(cfg, [n], ancestors) == Render(cfg, n, ancestors)
  {
    assert [n][1..] == [];
  }

  /** Dropping at most the length of the leading text leaves the rest untouched. */
  lemma DropFromLeadingText(s: string, tail: string, n: nat)
    requires n <= |s|
    ensures Drop(s + tail, n) == s[n..] + tail
  {
    assert (s + tail)[n..] == s[n..] + tail;
  }

  lemma LeadingText(cfg: Config, s: string, rest: seq<Node>, ancestors: seq<Ancestor>)
    ensures RenderAll(cfg, [Text(s)] + rest, ancestors) == s + RenderAll(cfg, rest, ancestors)
  {
    RenderAllAppend(cfg, [Text(s)], rest, ancestors);
    RenderSingle(cfg, Text(s), ancestors);
  }

  /** The as-written cut is right for a paragraph rendered with its `<p>` tag. */
  lemma CutAfterTag(x: string, tail: string, n: nat)
    requires n <= |x|
    ensures CalloutContentsAsWritten("<p>" + (x + tail) + "</p>", n) == "<p>" + (x[n..] + tail) + "</p>"
  {
    var para := "<p>" + (x + tail) + "</p>";
    assert para[..3] == "<p>";
    assert para[3..] == (x + tail) + "</p>";
    DropFromLeadingText(x, tail + "</p>", n);
    assert (x + tail) + "</p>" == x + (tail + "</p>");
  }

  lemma ParagraphRender(cfg: Config, cs: seq<Node>, ancestors: seq<Ancestor>)
    ensures var body := RenderAll(cfg, cs, ancestors + [OtherMarkup]);
      Render(cfg, Paragraph(cs), ancestors) == if ParagraphWrapped(cfg, ancestors) then "<p>" + body + "</p>" else body
  {
    var body := RenderAll(cfg, cs, ancestors + [OtherMarkup]);
    assert Render(cfg, Paragraph(cs), ancestors) == if ParagraphWrapped(cfg, ancestors) then Element("p", [], body) else body;
    assert Element("p", [], body) == "<p>" + body + "</p>";
  }

  /** The cut of a callout, on a rendered paragraph that starts with the matched text. */
  lemma CalloutCut(s: string, tail: string, wrapped: bool, n: nat)
    requires n <= |s|
    ensures CalloutContents(if wrapped then "<p>" + (s + tail) + "</p>" else s + tail, wrapped, n)
      == if wrapped then "<p>" + (s[n..] + tail) + "</p>" else s[n..] + tail
  {
    if wrapped {
      CutAfterTag(s, tail, n);
    } else {
      DropFromLeadingText(s, tail, n);
    }
  }

  lemma QuoteRender(cfg: Config, cs: seq<Node>, ancestors: seq<Ancestor>)
    ensures Render(cfg, BlockQuote(cs), ancestors) == RenderBlockQuote(cfg, cs, ancestors)
  {
  }

  /**
   * A block quote that is not a callout renders its children in a plain
   * `blockquote`. A callout is classed with its style; its rendered children
   * keep their first three characters and lose the prefix's length after
   * them, unless (corrected only) the paragraph has no `<p>` tag, when the
   * prefix's length is dropped from the start.
   */
  lemma BlockQuoteCallout(cfg: Config, cs: seq<Node>, ancestors: seq<Ancestor>)
    ensures var inner := ancestors + [OtherMarkup];
      var contents := RenderAll(cfg, cs, inner);
      var r := Render(cfg, BlockQuote(cs), ancestors);
      && (Callout(cfg, cs).None? ==> r == Element("blockquote", [], contents))
      && (Callout(cfg, cs).Some? && (cfg.variant.AsWritten? || ParagraphWrapped(cfg, inner)) ==>
            r == Element("blockquote", [Attribute("class", Callout(cfg, cs).value.0)],
                         Take(contents, 3) + Drop(Drop(contents, 3), Callout(cfg, cs).value.1)))
      && (Callout(cfg, cs).Some? && cfg.variant.Corrected? && !ParagraphWrapped(cfg, inner) ==>
            r == Element("blockquote", [Attribute("class", Callout(cfg, cs).value.0)], Drop(contents, Callout(cfg, cs).value.1)))
  {
    var inner := ancestors + [OtherMarkup];
    var contents := RenderAll(cfg, cs, inner);
    QuoteRender(cfg, cs, ancestors);
    match Callout(cfg, cs)
    case None =>
    case Some(found) =>
      assert RenderBlockQuote(cfg, cs, ancestors)
        == Element("blockquote", [Attribute("class", found.0)], CalloutContents(contents, KeepsTag(cfg, inner), found.1));
  }

  /** The paragraph of a callout, rendered as the only child of the quote, with its prefix cut. */
  lemma CutParagraph(cfg: Config, s: string, rest: seq<Node>, inner: seq<Ancestor>, n: nat)
    requires n <= |s|
    ensures CalloutContents(RenderAll(cfg, [Paragraph([Text(s)] + rest)], inner), ParagraphWrapped(cfg, inner), n)
      == Render(cfg, Paragraph([Text(s[n..])] + rest), inner)
  {
    var body := inner + [OtherMarkup];
    var tail := RenderAll(cfg, rest, body);
    LeadingText(cfg, s, rest, body);
    LeadingText(cfg, s[n..], rest, body);
    RenderSingle(cfg, Paragraph([Text(s)] + rest), inner);
    ParagraphRender(cfg, [Text(s)] + rest, inner);
    ParagraphRender(cfg, [Text(s[n..])] + rest, inner);
    CalloutCut(s, tail, ParagraphWrapped(cfg, inner), n);
  }

  /**
   * A callout loses its prefix: when the prefix lies in the paragraph's
   * leading text, the block quote renders as the paragraph without it, with
   * the style as its class. Corrected this holds inside a list as well as
   * outside; as written only where the paragraph keeps its `<p>` tag.
   */
  lemma CalloutStripsPrefix(cfg: Config, s: string, rest: seq<Node>, ancestors: seq<Ancestor>, found: (string, nat))
    requires Callout(cfg, [Paragraph([Text(s)] + rest)]) == Some(found)
    requires found.1 <= |s|
    requires cfg.variant.Corrected? || ParagraphWrapped(cfg, ancestors + [OtherMarkup])
    ensures Render(cfg, BlockQuote([Paragraph([Text(s)] + rest)]), ancestors)
      == Element("blockquote", [Attribute("class", found.0)],
                 Render(cfg, Paragraph([Text(s[found.1..])] + rest), ancestors + [OtherMarkup]))
  {
    BlockQuoteCallout(cfg, [Paragraph([Text(s)] + rest)], ancestors);
    CutParagraph(cfg, s, rest, ancestors + [OtherMarkup], found.1);
  }

  // ---------------------------------------------------------------------
  // Code blocks, headings, links and images

  function CodeBlockAttributes(language: Option<string>): (r: seq<Attribute>)
    ensures HasKey(r, "class") <==> language.Some?
    ensures language.Some? ==> r[0].value == "language-" + Lower(language.value)
    ensures language.None? ==> r == []
    ensures language.Some? ==> |r| == 1 && r[0].key == "class"
  {
    match language
    case None => []
    case Some(l) =>
      var r := [Attribute("class", "language-" + Lower(l))];
      assert r[0].key == "class";
      r
  }

  /** `/*!*/` opens and `/*.*/` closes a highlighted span. */
  function Highlight(code: string): string {
    ReplaceEach(code, [("/*!*/", "<span class=\"highlight\">"), ("/*.*/", "</span>")])
  }

  /** Code without highlight markers is shown as its escaped text. */
  lemma CodeBlockWithoutMarkers(cfg: Config, language: Option<string>, code: string, ancestors: seq<Ancestor>)
    requires !Occurs(EscapeAngleBrackets(code), "/*!*/") && !Occurs(EscapeAngleBrackets(code), "/*.*/")
    ensures Render(cfg, CodeBlock(language, code), ancestors)
      == Element("pre", [], Element("code", CodeBlockAttributes(language), EscapeAngleBrackets(code)))
  {
    ReplaceEachAbsent(EscapeAngleBrackets(code), [("/*!*/", "<span class=\"highlight\">"), ("/*.*/", "</span>")]);
  }

  /** Second- and third-level headings get an `id` made from their plain text. */
  function HeadingAttributes(cfg: Config, level: nat, cs: seq<Node>): (r: seq<Attribute>)
    ensures HasKey(r, "id") <==> level == 2 || level == 3
    ensures |r| <= 1
    ensures |r| == 1 ==> r[0].value == cfg.slugify(Lower(PlainTextAll(cs)))
    ensures r == [] <==> !(level == 2 || level == 3)
  {
    if level == 2 || level == 3 then
      var r := [Attribute("id", cfg.slugify(Lower(PlainTextAll(cs))))];
      assert r[0].key == "id";
      r
    else []
  }

  const AnchorPrefix := "#[name]"

  /** Links to anything but a relative path, a site path or a fragment open in a new tab. */
  predicate OpensInNewTab(destination: string) {
    !StartsWith(destination, ".") && !StartsWith(destination, "/") && !StartsWith(destination, "#")
  }

  /** A site path `/x` is resolved against the base URL; anything else is kept. */
  function Href(baseURL: string, destination: string): string {
    if StartsWith(destination, "/") then EnsureTrailingSlash(baseURL) + destination[1..] else destination
  }

  function LinkAttributes(baseURL: string, destination: Option<string>): (r: seq<Attribute>)
    ensures destination.None? ==> r == []
    ensures destination.Some? ==>
      var d := destination.value;
      (HasKey(r, "name") <==> StartsWith(d, AnchorPrefix))
      && (HasKey(r, "href") <==> !StartsWith(d, AnchorPrefix))
      && (HasKey(r, "target") <==> OpensInNewTab(d))
      && r[0] == (if StartsWith(d, AnchorPrefix) then Attribute("name", d[|AnchorPrefix|..])
                  else Attribute("href", Href(baseURL, d)))
      && r == [r[0]] + (if OpensInNewTab(d) then [Attribute("target", "_blank")] else [])
  {
    match destination
    case None => []
    case Some(d) =>
      var main := if StartsWith(d, AnchorPrefix) then Attribute("name", d[|AnchorPrefix|..])
                  else Attribute("href", Href(baseURL, d));
      if OpensInNewTab(d) then
        var r := [main, Attribute("target", "_blank")];
        assert r[1].key == "target" && r[0].key == main.key;
        r
      else
        var r := [main];
        assert r[0].key == main.key;
        r
  }

  /** A named anchor never opens a new tab, and a site path never gets a doubled slash after the base URL. */
  lemma LinkTargets(baseURL: string, d: string)
    ensures StartsWith(d, AnchorPrefix) ==> !OpensInNewTab(d)
    ensures StartsWith(d, "/") ==> Href(baseURL, d) == EnsureTrailingSlash(baseURL) + d[1..]
    ensures StartsWith(d, "/") && |baseURL| > 0 && baseURL[|baseURL| - 1] == '/' ==> Href(baseURL, d) == baseURL + d[1..]
  {
    if StartsWith(d, AnchorPrefix) {
      assert d[..1] == AnchorPrefix[..1];
    }
  }

  function ImageAttributes(cfg: Config, source: string, title: Option<string>, cs: seq<Node>): (r: seq<Attribute>)
    ensures |r| >= 2 && r[0] == Attribute("src", cfg.resolveAsset(source, cfg.baseURL, cfg.assetsPath, cfg.slug))
    ensures r[1] == Attribute("alt", PlainTextAll(cs))
    ensures HasKey(r, "title") <==> title.Some?
    ensures r[2..] == if title.Some? then [Attribute("title", title.value)] else []
  {
    var base := [Attribute("src", cfg.resolveAsset(source, cfg.baseURL, cfg.assetsPath, cfg.slug)),
                 Attribute("alt", PlainTextAll(cs))];
    match title
    case None => base
    case Some(t) => assert (base + [Attribute("title", t)])[2].key == "title"; base + [Attribute("title", t)]
  }

  /** An image renders to nothing exactly when it has no source or an empty one. */
  function RenderImage(cfg: Config, source: Option<string>, title: Option<string>, cs: seq<Node>): (r: string)
    ensures r == "" <==> source.None? || source.value == ""
    ensures r != "" ==> r == ShortElement("img", ImageAttributes(cfg, source.value, title, cs))
  {
    match source
    case None => ""
    case Some(s) => if s == "" then "" else ShortElement("img", ImageAttributes(cfg, s, title, cs))
  }

  // ---------------------------------------------------------------------
  // Block directives

  /** `parseNameValueArguments`, called only for a non-empty argument text. */
  function DirectiveArguments(cfg: Config, argumentText: string): ParsedArguments {
    if |argumentText| > 0 then cfg.parseArguments(argumentText) else ParsedArguments([], [])
  }

  /** The first definition whose name equals `name` ignoring case. */
  function FindDefinition(directives: seq<DirectiveDefinition>, name: string): (r: Option<DirectiveDefinition>)
    ensures r.None? <==> forall i :: 0 <= i < |directives| ==> Lower(directives[i].name) != Lower(name)
    ensures r.Some? ==> r.value in directives && Lower(r.value.name) == Lower(name)
    ensures r.Some? ==>
      exists k :: 0 <= k < |directives| && directives[k] == r.value && forall i :: 0 <= i < k ==> Lower(directives[i].name) != Lower(name)
  {
    if directives == [] then None
    else if Lower(directives[0].name) == Lower(name) then Some(directives[0])
    else
      assert forall i :: 1 <= i < |directives| ==> directives[i] == directives[1..][i - 1];
      FindDefinition(directives[1..], name)
  }

  /** The lookup depends on the name only up to case. */
  lemma {:induction false} FindDefinitionIgnoresCase(directives: seq<DirectiveDefinition>, a: string, b: string)
    requires Lower(a) == Lower(b)
    ensures FindDefinition(directives, a) == FindDefinition(directives, b)
  {
    if directives != [] {
      FindDefinitionIgnoresCase(directives[1..], a, b);
    }
  }

  /** `getFirstValueBy(key:)`: the value of the first argument with that name. */
  function FirstValue(arguments: seq<Argument>, name: string): (r: Option<string>)
    ensures r.None? <==> forall i :: 0 <= i < |arguments| ==> arguments[i].name != name
    ensures r.Some? ==>
      exists k :: 0 <= k < |arguments| && arguments[k] == Argument(name, r.value) && forall i :: 0 <= i < k ==> arguments[i].name != name
  {
    if arguments == [] then None
    else if arguments[0].name == name then Some(arguments[0].value)
    else
      assert forall i :: 1 <= i < |arguments| ==> arguments[i] == arguments[1..][i - 1];
      FirstValue(arguments[1..], name)
  }

  /** One turn of the parameter loop: a required parameter is set only when given. */
  function ParameterStep(values: map<string, string>, p: Parameter, arguments: seq<Argument>): map<string, string> {
    if p.required.GetOr(false) then
      match FirstValue(arguments, p.key)
      case Some(v) => values[p.key := v]
      case None => values
    else values[p.key := FirstValue(arguments, p.key).GetOr(p.default.GetOr(""))]
  }

  function Parameters(ps: seq<Parameter>, arguments: seq<Argument>): map<string, string>
    decreases |ps|
  {
    if ps == [] then map[] else ParameterStep(Parameters(ps[..|ps| - 1], arguments), ps[|ps| - 1], arguments)
  }

  /** The loop that fills `parameters`. */
  method BuildParameters(ps: seq<Parameter>, arguments: seq<Argument>) returns (parameters: map<string, string>)
    ensures parameters == Parameters(ps, arguments)
  {
    parameters := map[];
    for i := 0 to |ps|
      invariant parameters == Parameters(ps[..i], arguments)
    {
      assert ps[..i + 1][..i] == ps[..i];
      var p := ps[i];
      if p.required.GetOr(false) {
        var v := FirstValue(arguments, p.key);
        if v.Some? {
          parameters := parameters[p.key := v.value];
        }
      } else {
        parameters := parameters[p.key := FirstValue(arguments, p.key).GetOr(p.default.GetOr(""))];
      }
    }
    assert ps[..|ps|] == ps;
  }

  /** Every key of the parameters is the label of some declared parameter. */
  lemma {:induction false} ParameterLabels(ps: seq<Parameter>, arguments: seq<Argument>)
    ensures forall l :: l in Parameters(ps, arguments) ==> exists k :: 0 <= k < |ps| && ps[k].key == l
    decreases |ps|
  {
    if ps != [] {
      var prefix := ps[..|ps| - 1];
      ParameterLabels(prefix, arguments);
      assert Parameters(ps, arguments) == ParameterStep(Parameters(prefix, arguments), ps[|ps| - 1], arguments);
      forall l | l in Parameters(ps, arguments) ensures exists k :: 0 <= k < |ps| && ps[k].key == l {
        if l != ps[|ps| - 1].key {
          assert l in Parameters(prefix, arguments);
          var k :| 0 <= k < |prefix| && prefix[k].key == l;
          assert ps[k] == prefix[k];
        }
      }
    }
  }

  /**
   * For a parameter whose label is declared once: an optional parameter
   * takes the first argument with its label, else its default, else "";
   * a required one is present exactly when an argument gives it.
   */
  lemma {:induction false} ParameterValue(ps: seq<Parameter>, arguments: seq<Argument>, j: nat)
    requires j < |ps|
    requires forall k :: 0 <= k < |ps| && ps[k].key == ps[j].key ==> k == j
    ensures var values := Parameters(ps, arguments);
      var p := ps[j];
      if p.required.GetOr(false) then
        (p.key in values <==> FirstValue(arguments, p.key).Some?)
        && (p.key in values ==> values[p.key] == FirstValue(arguments, p.key).value)
      else
        p.key in values && values[p.key] == FirstValue(arguments, p.key).GetOr(p.default.GetOr(""))
    decreases |ps|
  {
    var prefix := ps[..|ps| - 1];
    if j == |ps| - 1 {
      ParameterLabels(prefix, arguments);
      forall k | 0 <= k < |prefix| ensures prefix[k].key != ps[j].key {
        assert prefix[k] == ps[k];
      }
    } else {
      assert prefix[j] == ps[j];
      forall k | 0 <= k < |prefix| && prefix[k].key == prefix[j].key ensures k == j {
        assert prefix[k] == ps[k];
      }
      ParameterValue(prefix, arguments, j);
    }
  }

  /** The template token of a parameter label; the label can be read back from it. */
  function Token(key: string): (r: string)
    ensures |r| == |key| + 4 && Label(r) == key
  {
    "{{" + key + "}}"
  }

  /** The label inside a token. */
  function Label(token: string): string
    requires |token| >= 4
  {
    token[2..|token| - 2]
  }

  /** `e` is the token of a parameter value, paired with that value. */
  predicate TokenOf(values: map<string, string>, e: (string, string)) {
    |e.0| >= 4 && Label(e.0) in values && e == (Token(Label(e.0)), values[Label(e.0)])
  }

  /**
   * `parameters.mapKeys { "{{\($0)}}" }`: the token of every value whose
   * label is a declared parameter, paired with that value, and nothing else;
   * no token twice (the keys of a dictionary are distinct). The source's
   * dictionary has no order; here the tokens follow the declarations.
   */
  function TemplateParams(ps: seq<Parameter>, values: map<string, string>): (r: seq<(string, string)>)
    ensures forall i :: 0 <= i < |r| ==> TokenOf(values, r[i])
    ensures forall j :: 0 <= j < |ps| && ps[j].key in values ==> (Token(ps[j].key), values[ps[j].key]) in r
    ensures forall i, j :: 0 <= i < j < |r| ==> r[i].0 != r[j].0
    decreases |ps|
  {
    if ps == [] then []
    else
      var key := ps[0].key;
      var head := if key in values then [(Token(key), values[key])] else [];
      var tail := TemplateParams(ps[1..], values - {key});
      assert forall i :: 0 <= i < |tail| ==> Label(tail[i].0) != key;
      assert forall j :: 1 <= j < |ps| ==> ps[j] == ps[1..][j - 1];
      head + tail
  }

  /**
   * The tokens of an output template: `{{contents}}` stands for the rendered
   * children, overriding a parameter labelled `contents`; every other token
   * is a parameter's, and every parameter other than `contents` has its token.
   */
  function OutputTokens(ps: seq<Parameter>, values: map<string, string>, contents: string): (r: seq<(string, string)>)
    ensures forall i :: 0 <= i < |r| ==> |r[i].0| > 0
    ensures forall i, j :: 0 <= i < j < |r| ==> r[i].0 != r[j].0
    ensures (Token("contents"), contents) in r
    ensures forall i :: 0 <= i < |r| && r[i].0 != Token("contents") ==> TokenOf(values, r[i]) && Label(r[i].0) != "contents"
    ensures forall j :: 0 <= j < |ps| && ps[j].key in values && ps[j].key != "contents" ==>
      (Token(ps[j].key), values[ps[j].key]) in r
  {
    var others := values - {"contents"};
    var params := TemplateParams(ps, others);
    var r := params + [(Token("contents"), contents)];
    assert r[|params|] == (Token("contents"), contents);
    assert forall i :: 0 <= i < |params| ==> r[i] == params[i] && Label(params[i].0) != "contents";
    r
  }

  /** A directive that names a parent is rendered only inside a directive of that name (ignoring case). */
  predicate ParentSatisfied(d: DirectiveDefinition, ancestors: seq<Ancestor>) {
    match d.requiresParentDirective
    case None => true
    case Some(parent) =>
      parent == "" || (ParentDirective(ancestors).Some? && Lower(ParentDirective(ancestors).value) == Lower(parent))
  }

  function TemplatedAttributes(attributes: seq<DirectiveAttribute>, tokens: seq<(string, string)>): seq<Attribute>
    requires forall i :: 0 <= i < |tokens| ==> |tokens[i].0| > 0
  {
    seq(|attributes|, i requires 0 <= i < |attributes| => Attribute(attributes[i].name, ReplaceEach(attributes[i].value, tokens)))
  }

  function RenderDirective(cfg: Config, name: string, argumentText: string, cs: seq<Node>, ancestors: seq<Ancestor>): string
    decreases cs, 2
  {
    var parsed := DirectiveArguments(cfg, argumentText);
    if |parsed.errors| > 0 then ""
    else match FindDefinition(cfg.directives, name)
      case None => ""
      case Some(d) =>
        var ps := d.parameters.GetOr([]);
        var tokens := TemplateParams(ps, Parameters(ps, parsed.arguments));
        var contents := RenderAll(cfg, cs, ancestors + [Directive(name)]);
        if !ParentSatisfied(d, ancestors) then ""
        else if d.output.Some? then ReplaceEach(d.output.value, OutputTokens(ps, Parameters(ps, parsed.arguments), contents))
        else if d.tag.Some? then Element(d.tag.value, TemplatedAttributes(d.attributes.GetOr([]), tokens), contents)
        else ""
  }

  /**
   * A directive renders to something only when its arguments parse, its
   * name resolves, its required parent is its parent, and it defines an
   * output template or a tag.
   */
  lemma DirectiveResolution(cfg: Config, name: string, argumentText: string, cs: seq<Node>, ancestors: seq<Ancestor>)
    ensures var r := Render(cfg, BlockDirective(name, argumentText, cs), ancestors);
      var d := FindDefinition(cfg.directives, name);
      r != "" ==>
        DirectiveArguments(cfg, argumentText).errors == []
        && d.Some? && ParentSatisfied(d.value, ancestors)
        && (d.value.output.Some? || d.value.tag.Some?)
  {
  }
}
