/**
 * Expected outputs from HTMLVisitorTestSuite.swift, stated over the visitor
 * configured as the suite configures it, and the input on which the callout
 * cut of `visitBlockQuote` goes wrong.
 */
module HtmlVisitorExamples {
  import opened Wrappers
  import opened Text
  import opened Html
  import opened Markdown
  import opened HtmlVisitor

  /** The paragraph styles of the suite's `renderHTML`. */
  function SuiteStyles(): seq<(string, seq<string>)> {
    [("note", ["note"]), ("warning", ["warn", "warning"]), ("tip", ["tip"]),
     ("important", ["important"]), ("error", ["error", "caution"])]
  }

  /** The suite's visitor; assets resolve to themselves, which is what the suite expects for `lorem.jpg`. */
  function SuiteConfig(): Config {
    Config([], SuiteStyles(), "slug", "assets", "http://localhost:3000",
           s => s, (source, baseURL, assetsPath, slug) => source, t => ParsedArguments([], []), AsWritten)
  }

  /** Under styles whose first entry is the suite's `note`, a text starting with `NOTE: ` is a note. */
  lemma NotePrefix(styles: seq<(string, seq<string>)>, s: string)
    requires |styles| > 0 && styles[0] == ("note", ["note"])
    requires |s| >= 6 && s[..6] == "NOTE: "
    ensures MatchStyle(styles, Lower(s)) == Some(("note", 6))
  {
    var full := "note" + ": ";
    assert full == "note: ";
    assert Lower(full) == full by {
      forall i | 0 <= i < |full| ensures Lower(full)[i] == full[i] {
        assert !('A' <= full[i] <= 'Z');
      }
    }
    assert Lower(s)[..6] == full by {
      forall i | 0 <= i < 6 ensures Lower(s)[i] == full[i] {
        assert s[i] == "NOTE: "[i];
      }
    }
    assert PrefixMatches(Lower(s), "note");
  }

  /** A block quote at the top of the document, holding one paragraph of plain text. */
  lemma TopLevelQuote(cfg: Config, s: string)
    ensures Render(cfg, Document([BlockQuote([Paragraph([Text(s)])])]), [])
      == Render(cfg, BlockQuote([Paragraph([Text(s)])]), [OtherMarkup])
  {
    var quote := [BlockQuote([Paragraph([Text(s)])])];
    assert [] + [KindOf(Document(quote))] == [OtherMarkup];
    assert Render(cfg, Document(quote), []) == RenderAll(cfg, quote, [OtherMarkup]);
    RenderSingle(cfg, quote[0], [OtherMarkup]);
  }

  /** The plain text of a paragraph of one text run is that text. */
  lemma TextParagraphPlainText(s: string)
    ensures PlainText(Paragraph([Text(s)])) == s
  {
    assert [Text(s)][1..] == [];
    assert PlainTextAll([Text(s)]) == s + PlainTextAll([]);
  }

  /** A block quote of one paragraph of text starting with `NOTE: ` is a `note` callout. */
  lemma NoteQuote(cfg: Config, s: string)
    requires |cfg.paragraphStyles| > 0 && cfg.paragraphStyles[0] == SuiteStyles()[0]
    requires |s| >= 6 && s[..6] == "NOTE: "
    ensures Callout(cfg, [Paragraph([Text(s)])]) == Some(("note", 6))
  {
    TextParagraphPlainText(s);
    NotePrefix(cfg.paragraphStyles, s);
    CalloutIff(cfg, [Paragraph([Text(s)])]);
  }

  /**
   * `> NOTE: Lorem ipsum dolor sit amet.`: a block quote whose text starts
   * with `NOTE: ` renders as a `note` block quote around the paragraph
   * without its prefix.
   */
  lemma BlockquoteNote(cfg: Config, s: string)
    requires |cfg.paragraphStyles| > 0 && cfg.paragraphStyles[0] == SuiteStyles()[0] && cfg.directives == []
    requires |s| >= 6 && s[..6] == "NOTE: "
    ensures Render(cfg, Document([BlockQuote([Paragraph([Text(s)])])]), [])
      == Element("blockquote", [Attribute("class", "note")], Element("p", [], s[6..]))
  {
    var quote := [Paragraph([Text(s)])];
    TopLevelQuote(cfg, s);
    NoteQuote(cfg, s);
    assert [Text(s)] + [] == [Text(s)];
    CalloutStripsPrefix(cfg, s, [], [OtherMarkup], ("note", 6));
    assert [Text(s[6..])] + [] == [Text(s[6..])];
    assert [OtherMarkup] + [OtherMarkup] == [OtherMarkup, OtherMarkup];
    assert Render(cfg, BlockQuote(quote), [OtherMarkup])
      == Element("blockquote", [Attribute("class", "note")], Render(cfg, Paragraph([Text(s[6..])]), [OtherMarkup, OtherMarkup]));
    ParagraphRender(cfg, [Text(s[6..])], [OtherMarkup, OtherMarkup]);
    RenderSingle(cfg, Text(s[6..]), [OtherMarkup, OtherMarkup, OtherMarkup]);
    assert !InsideList([OtherMarkup, OtherMarkup]);
    assert ParagraphWrapped(cfg, [OtherMarkup, OtherMarkup]);
    assert Render(cfg, Paragraph([Text(s[6..])]), [OtherMarkup, OtherMarkup]) == "<p>" + s[6..] + "</p>";
    assert Element("p", [], s[6..]) == "<p>" + s[6..] + "</p>";
  }

  /** Inside a list a paragraph of one text run renders as the bare text. */
  lemma BareTextParagraph(cfg: Config, t: string, ancestors: seq<Ancestor>)
    requires InsideList(ancestors)
    ensures Render(cfg, Paragraph([Text(t)]), ancestors) == t
    ensures RenderAll(cfg, [Paragraph([Text(t)])], ancestors) == t
  {
    RenderSingle(cfg, Paragraph([Text(t)]), ancestors);
    ParagraphRender(cfg, [Text(t)], ancestors);
    RenderSingle(cfg, Text(t), ancestors + [OtherMarkup]);
  }

  /** The ancestors of a block quote's paragraph in a list item: the quote sits in the list. */
  lemma QuoteInListItem()
    ensures InsideList([OtherMarkup, ListContainer, OtherMarkup] + [OtherMarkup])
  {
    assert ([OtherMarkup, ListContainer, OtherMarkup] + [OtherMarkup])[1].ListContainer?;
  }

  /** Corrected, inside a list item a `NOTE: ` block quote is a `note` block quote around the text after the prefix. */
  lemma ListCalloutStripsPrefix(cfg: Config, s: string)
    requires |cfg.paragraphStyles| > 0 && cfg.paragraphStyles[0] == SuiteStyles()[0] && cfg.variant.Corrected?
    requires |s| >= 6 && s[..6] == "NOTE: "
    ensures Render(cfg, BlockQuote([Paragraph([Text(s)])]), [OtherMarkup, ListContainer, OtherMarkup])
      == Element("blockquote", [Attribute("class", "note")], s[6..])
  {
    var inList := [OtherMarkup, ListContainer, OtherMarkup];
    NoteQuote(cfg, s);
    QuoteInListItem();
    assert [Text(s)] + [] == [Text(s)];
    CalloutStripsPrefix(cfg, s, [], inList, ("note", 6));
    assert [Text(s[6..])] + [] == [Text(s[6..])];
    BareTextParagraph(cfg, s[6..], inList + [OtherMarkup]);
  }

  /** As written, inside a list item a `NOTE: ` block quote keeps `NOT` and loses the three characters after the prefix. */
  lemma ListCalloutAsWritten(cfg: Config, s: string)
    requires |cfg.paragraphStyles| > 0 && cfg.paragraphStyles[0] == SuiteStyles()[0] && cfg.variant.AsWritten?
    requires |s| >= 6 && s[..6] == "NOTE: "
    ensures Render(cfg, BlockQuote([Paragraph([Text(s)])]), [OtherMarkup, ListContainer, OtherMarkup])
      == Element("blockquote", [Attribute("class", "note")], "NOT" + Drop(s, 9))
  {
    var inList := [OtherMarkup, ListContainer, OtherMarkup];
    NoteQuote(cfg, s);
    QuoteInListItem();
    BareTextParagraph(cfg, s, inList + [OtherMarkup]);
    BlockQuoteCallout(cfg, [Paragraph([Text(s)])], inList);
    assert RenderAll(cfg, [Paragraph([Text(s)])], inList + [OtherMarkup]) == s;
    assert Take(s, 3) == "NOT";
    assert Drop(Drop(s, 3), 6) == Drop(s, 9);
  }

  /**
   * `- > NOTE: ...`: inside a list the paragraph has no `<p>` tag. As
   * written, the three characters kept for the tag are the first three of
   * the prefix, and three characters of the text after it are cut instead;
   * the corrected cut leaves the text after the prefix.
   */
  lemma CalloutInList(cfg: Config, s: string)
    requires |cfg.paragraphStyles| > 0 && cfg.paragraphStyles[0] == SuiteStyles()[0]
    requires |s| >= 6 && s[..6] == "NOTE: "
    ensures var quote := [Paragraph([Text(s)])];
      var inList := [OtherMarkup, ListContainer, OtherMarkup];
      && Callout(cfg, quote) == Some(("note", 6))
      && RenderAll(cfg, quote, inList + [OtherMarkup]) == s
      && (cfg.variant.AsWritten? ==>
            Render(cfg, BlockQuote(quote), inList) == Element("blockquote", [Attribute("class", "note")], "NOT" + Drop(s, 9)))
      && (cfg.variant.Corrected? ==>
            Render(cfg, BlockQuote(quote), inList) == Element("blockquote", [Attribute("class", "note")], s[6..]))
  {
    NoteQuote(cfg, s);
    QuoteInListItem();
    BareTextParagraph(cfg, s, [OtherMarkup, ListContainer, OtherMarkup] + [OtherMarkup]);
    if cfg.variant.AsWritten? {
      ListCalloutAsWritten(cfg, s);
    } else {
      ListCalloutStripsPrefix(cfg, s);
    }
  }

  /**
   * `- > NOTE: hello` under the suite's configuration renders as a `note`
   * block quote around `NOTlo`; corrected, around `hello`.
   */
  lemma CalloutInListAsWritten()
    ensures Render(SuiteConfig(), BlockQuote([Paragraph([Text("NOTE: hello")])]), [OtherMarkup, ListContainer, OtherMarkup])
      == Element("blockquote", [Attribute("class", "note")], "NOTlo")
    ensures Render(SuiteConfig().(variant := Corrected), BlockQuote([Paragraph([Text("NOTE: hello")])]), [OtherMarkup, ListContainer, OtherMarkup])
      == Element("blockquote", [Attribute("class", "note")], "hello")
  {
    var s := "NOTE: hello";
    assert s[..6] == "NOTE: ";
    CalloutInList(SuiteConfig(), s);
    CalloutInList(SuiteConfig().(variant := Corrected), s);
    assert "NOT" + Drop(s, 9) == "NOTlo";
    assert s[6..] == "hello";
  }

  /** The parameters of `box`: `contents` takes its default. */
  lemma BoxTokens(ps: seq<Parameter>)
    requires ps == [Parameter("contents", None, Some("P"))]
    ensures Parameters(ps, []) == map["contents" := "P"]
    ensures OutputTokens(ps, Parameters(ps, []), "C") == [("{{contents}}", "C")]
  {
    assert ps[..0] == [];
    assert map["contents" := "P"] - {"contents"} == map[];
    assert TemplateParams(ps, map[]) == [] by {
      assert ps[1..] == [];
    }
    assert Token("contents") == "{{contents}}";
  }

  /** The template `{{contents}}` filled with `C`. */
  lemma BoxTemplate()
    ensures ReplaceEach("{{contents}}", [("{{contents}}", "C")]) == "C"
  {
    var t := "{{contents}}";
    assert t[..|t|] == t && t[|t|..] == "";
    assert ReplaceAll(t, t, "C") == "C" + ReplaceAll("", t, "C");
  }

  /**
   * A directive `box` whose output template is `{{contents}}` and which
   * declares an optional parameter `contents` defaulting to `P`: the rendered
   * children, not the parameter, fill the template.
   */
  lemma ContentsOverridesParameter(cfg: Config)
    requires cfg.directives == [DirectiveDefinition("box", Some([Parameter("contents", None, Some("P"))]), None, None, None, None, Some("{{contents}}"))]
    ensures Render(cfg, BlockDirective("box", "", [Text("C")]), [OtherMarkup]) == "C"
  {
    var d := cfg.directives[0];
    assert Lower("box") == "box";
    assert FindDefinition(cfg.directives, "box") == Some(d);
    BoxTokens(d.parameters.value);
    BoxTemplate();
    RenderSingle(cfg, Text("C"), [OtherMarkup] + [Directive("box")]);
    assert DirectiveArguments(cfg, "") == ParsedArguments([], []);
  }

  /** `2. foo` starts the list at 2. */
  lemma OrderedListWithStartIndex(cfg: Config, items: seq<Node>)
    ensures StartsWith(Render(cfg, OrderedList(2, items), [OtherMarkup]), "<ol start=\"2\">")
  {
    OrderedListStart(cfg, 2, items, [OtherMarkup]);
    assert NatToString(2) == "2";
    assert "<ol start=\"" + "2" + "\">" == "<ol start=\"2\">";
  }

  /** `[Swift](/foo)`, `[Swift](foo/bar)` and `[Swift](#[name]anchor)`. */
  lemma LinkDestinations()
    ensures LinkAttributes("http://localhost:3000", Some("/foo")) == [Attribute("href", "http://localhost:3000/foo")]
    ensures LinkAttributes("http://localhost:3000", Some("foo/bar"))
      == [Attribute("href", "foo/bar"), Attribute("target", "_blank")]
    ensures LinkAttributes("http://localhost:3000", Some("#[name]anchor")) == [Attribute("name", "anchor")]
    ensures LinkAttributes("http://localhost:3000", None) == []
  {
    assert "/foo"[..1] == "/" && "/foo"[1..] == "foo";
    assert Href("http://localhost:3000", "/foo") == "http://localhost:3000/foo";
    assert "foo/bar"[..1] == "f";
    assert !StartsWith("foo/bar", AnchorPrefix) && OpensInNewTab("foo/bar");
    assert "#[name]anchor"[..7] == AnchorPrefix && "#[name]anchor"[7..] == "anchor";
    assert "#[name]anchor"[..1] == "#";
  }

  /** The text of `See the `<head>` tag.`'s code span, escaped. */
  lemma EscapeHeadTag()
    ensures EscapeAngleBrackets("<head>") == "&lt;head&gt;"
  {
    assert EscapeAngleBrackets(">") == "&gt;" by { assert ">"[1..] == ""; }
    assert EscapeAngleBrackets("d>") == "d&gt;" by { assert "d>"[1..] == ">"; }
    assert EscapeAngleBrackets("ad>") == "ad&gt;" by { assert "ad>"[1..] == "d>"; }
    assert EscapeAngleBrackets("ead>") == "ead&gt;" by { assert "ead>"[1..] == "ad>"; }
    assert EscapeAngleBrackets("head>") == "head&gt;" by { assert "head>"[1..] == "ead>"; }
    assert "<head>"[1..] == "head>";
  }

  /** `See the `<head>` tag.`: the code span's text is escaped inside a `code` element. */
  lemma InlineCodeIsEscaped()
    ensures Render(SuiteConfig(), InlineCode("<head>"), [OtherMarkup, OtherMarkup]) == Element("code", [], "&lt;head&gt;")
  {
    EscapeHeadTag();
  }
}
