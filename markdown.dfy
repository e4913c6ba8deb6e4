/**
 * The parsed Markdown tree the visitor walks. The parser (swift-markdown) is a
 * foreign library, so the tree is given as a value; every node kind the
 * visitor distinguishes has its own constructor and `Other` stands for the
 * remaining kinds, whose default visit renders their children.
 */
module Markdown {
  import opened Wrappers

  datatype Node =
    | Document(children: seq<Node>)
    | Text(text: string)
    | HtmlBlock(rawHTML: string)
    | InlineHtml(rawHTML: string)
    | SoftBreak
    | LineBreak
    | ThematicBreak
    | ListItem(children: seq<Node>)
    | OrderedList(startIndex: nat, children: seq<Node>)
    | UnorderedList(children: seq<Node>)
    | InlineCode(code: string)
    | Emphasis(children: seq<Node>)
    | Strong(children: seq<Node>)
    | Strikethrough(children: seq<Node>)
    | Paragraph(children: seq<Node>)
    | BlockQuote(children: seq<Node>)
    | CodeBlock(language: Option<string>, code: string)
    | Heading(level: nat, children: seq<Node>)
    | Link(destination: Option<string>, children: seq<Node>)
    | Image(source: Option<string>, title: Option<string>, children: seq<Node>)
    | Table(children: seq<Node>)
    | TableHead(children: seq<Node>)
    | TableBody(children: seq<Node>)
    | TableRow(children: seq<Node>)
    | TableCell(children: seq<Node>)
    | BlockDirective(name: string, argumentText: string, children: seq<Node>)
    | Other(children: seq<Node>)

  /**
   * What the visitor needs to know about a node's ancestors: whether it is a
   * list (a `ListItemContainer`), a block directive with its name, or anything else.
   */
  datatype Ancestor = ListContainer | Directive(name: string) | OtherMarkup

  function KindOf(n: Node): Ancestor {
    match n
    case OrderedList(_, _) => ListContainer
    case UnorderedList(_) => ListContainer
    case BlockDirective(name, _, _) => Directive(name)
    case _ => OtherMarkup
  }

  /** `isInsideList`: some ancestor is an ordered or unordered list. */
  predicate InsideList(ancestors: seq<Ancestor>) {
    exists i :: 0 <= i < |ancestors| && ancestors[i].ListContainer?
  }

  /** The name of the parent node when the parent is a block directive. */
  function ParentDirective(ancestors: seq<Ancestor>): Option<string> {
    if |ancestors| > 0 && ancestors[|ancestors| - 1].Directive? then Some(ancestors[|ancestors| - 1].name)
    else None
  }

  /**
   * `plainText` of an inline node: the text of text-like leaves (a code span
   * keeps its backticks, a soft break reads as a space, a line break as a
   * newline) and the concatenated plain
   * text of inline containers; block nodes contribute nothing.
   */
  function PlainText(n: Node): string
    decreases n, 1
  {
    match n
    case Text(t) => t
    case InlineCode(c) => "`" + c + "`"
    case InlineHtml(h) => h
    case SoftBreak => " "
    case LineBreak => "\n"
    case Emphasis(cs) => PlainTextAll(cs)
    case Strong(cs) => PlainTextAll(cs)
    case Strikethrough(cs) => PlainTextAll(cs)
    case Link(_, cs) => PlainTextAll(cs)
    case Image(_, _, cs) => PlainTextAll(cs)
    case Paragraph(cs) => PlainTextAll(cs)
    case Heading(_, cs) => PlainTextAll(cs)
    case TableCell(cs) => PlainTextAll(cs)
    case _ => ""
  }

  function PlainTextAll(cs: seq<Node>): string
    decreases cs, 0
  {
    if cs == [] then "" else PlainText(cs[0]) + PlainTextAll(cs[1..])
  }
}
