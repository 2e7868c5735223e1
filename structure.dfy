/**
 * The renderer's output read as markup: the elements each tag opens and the
 * nodes each event stands for, as an independent reference for the byte
 * strings the writer emits.
 */
module Structure {
  import opened Wrappers
  import opened Events
  import opened Decimal
  import opened Fragments
  import opened Markup

  /** The attributes of a code block's `code` element. */
  function CodeAttrs(kind: CodeBlockKind): (r: seq<Attr>)
    ensures HasAttr(r, "class") <==> kind.Fenced? && kind.lang != ""
    ensures r != [] ==> kind.Fenced? && r == [Attr("class", Some("language-" + kind.lang))]
  {
    match kind
    case Fenced(lang) =>
      if lang == "" then []
      else
        var r := [Attr("class", Some("language-" + lang))];
        assert r[0].key == "class";
        r
    case Indented => []
  }

  /** The attributes of a link or image element. */
  function LinkAttrs(ty: LinkType, dest: string, title: string): (r: seq<Attr>)
    ensures |r| >= 1 && r[0] == Attr("href", Some(LinkUrl(ty, dest)))
    ensures HasAttr(r, "title") <==> title != ""
    ensures title != "" ==> r == [r[0], Attr("title", Some(title))]
    ensures |r| == if title == "" then 1 else 2
  {
    var href := Attr("href", Some(LinkUrl(ty, dest)));
    if title == "" then
      assert "href" != "title";
      [href]
    else
      var r := [href, Attr("title", Some(title))];
      assert r[1].key == "title";
      r
  }

  /** The elements a tag opens; `None` for the tags the renderer does not support. */
  function OpenNodes(tag: Tag): (r: Option<seq<Node>>)
    ensures r.Some? ==> |r.value| >= 1 && AllOpen(r.value)
  {
    match tag
    case Paragraph => Some([Open("p", [])])
    case Heading(level) => Some([Open("h" + DecimalString(level as nat), [])])
    case BlockQuote => Some([Open("blockquote", [])])
    case CodeBlock(kind) => Some([Open("pre", []), Open("code", CodeAttrs(kind))])
    case List(Some(start)) => Some([Open("ol", [Attr("start", Some(DecimalString(start as nat)))])])
    case List(None) => Some([Open("ul", [])])
    case Item => Some([Open("li", [])])
    case Emphasis => Some([Open("em", [])])
    case Strong => Some([Open("strong", [])])
    case Strikethrough => Some([Open("del", [])])
    case Link(ty, dest, title) => Some([Open("a", LinkAttrs(ty, dest, title))])
    case Image(ty, dest, title) => Some([Open("img", LinkAttrs(ty, dest, title))])
    case _ => None
  }

  /** The markup of one event. */
  function EventNodes(ev: Event): Option<seq<Node>>
  {
    match ev
    case Start(tag) => OpenNodes(tag)
    case End(tag) => if OpenNodes(tag).Some? then Some(Closing(OpenNodes(tag).value)) else None
    case Text(text) => Some([Raw(text)])
    case Code(code) => Some([Open("code", []), Raw(code), Close("code")])
    case Html(html) => Some([Raw(html)])
    case SoftBreak => Some([Raw("\n")])
    case HardBreak => Some([Void("br", [])])
    case Rule => Some([Void("hr", [])])
    case TaskListMarker(_) =>
      Some([Void("input", [Attr("disabled", None), Attr("type", Some("checkbox")), Attr("checked", None)])])
    case FootnoteReference(_) => None
  }
}
