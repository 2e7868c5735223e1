/**
 * The renderer's byte strings read as markup: every fragment the writer
 * emits for an event is exactly the text of the nodes that event stands for,
 * and every end fragment is the text of the closing nodes of its start.
 *
 * Proofs about concrete strings are kept small: each string constant of the
 * renderer is split into the pieces the markup text is built from by a lemma
 * of its own, and the pieces are regrouped by lemmas over variables only.
 */
module Rendering {
  import opened Wrappers
  import opened Events
  import opened Decimal
  import opened Fragments
  import opened Markup
  import opened Structure

  // The text of short lists.

  lemma OneWrite(w: string)
    ensures Concat([w]) == w
  {
    assert [w][1..] == [];
  }

  lemma TwoWrites(a: string, b: string)
    ensures Concat([a, b]) == a + b
  {
    assert [a, b][1..] == [b];
    OneWrite(b);
  }

  lemma ThreeWrites(a: string, b: string, c: string)
    ensures Concat([a, b, c]) == a + b + c
  {
    assert [a, b, c][1..] == [b, c];
    TwoWrites(b, c);
  }

  lemma OneNodeText(n: Node)
    ensures NodesText([n]) == NodeText(n)
  {
    assert [n][1..] == [];
  }

  lemma TwoNodesText(a: Node, b: Node)
    ensures NodesText([a, b]) == NodeText(a) + NodeText(b)
  {
    assert [a, b][1..] == [b];
    OneNodeText(b);
  }

  lemma ThreeNodesText(a: Node, b: Node, c: Node)
    ensures NodesText([a, b, c]) == NodeText(a) + (NodeText(b) + NodeText(c))
  {
    assert [a, b, c][1..] == [b, c];
    TwoNodesText(b, c);
  }

  lemma OneAttrText(a: Attr)
    ensures AttrsText([a]) == AttrText(a)
  {
    assert [a][1..] == [];
  }

  lemma TwoAttrsText(a: Attr, b: Attr)
    ensures AttrsText([a, b]) == AttrText(a) + AttrText(b)
  {
    assert [a, b][1..] == [b];
    OneAttrText(b);
  }

  lemma ThreeAttrsText(a: Attr, b: Attr, c: Attr)
    ensures AttrsText([a, b, c]) == AttrText(a) + (AttrText(b) + AttrText(c))
  {
    assert [a, b, c][1..] == [b, c];
    TwoAttrsText(b, c);
  }

  lemma BareOpenText(name: string)
    ensures NodeText(Open(name, [])) == "<" + name + ">"
  {
    assert "<" + name + AttrsText([]) == "<" + name;
  }

  lemma BareVoidText(name: string)
    ensures NodeText(Void(name, [])) == "<" + name + " />"
  {
    assert "<" + name + AttrsText([]) == "<" + name;
  }

  /** The text of an opening element with one quoted attribute. */
  lemma OpenOneAttrText(name: string, k1: string, v1: string)
    ensures NodeText(Open(name, [Attr(k1, Some(v1))])) == "<" + name + (" " + k1 + "=\"" + v1 + "\"") + ">"
  {
    OneAttrText(Attr(k1, Some(v1)));
  }

  /** The text of an opening element with two quoted attributes. */
  lemma OpenTwoAttrsText(name: string, k1: string, v1: string, k2: string, v2: string)
    ensures NodeText(Open(name, [Attr(k1, Some(v1)), Attr(k2, Some(v2))]))
         == "<" + name + ((" " + k1 + "=\"" + v1 + "\"") + (" " + k2 + "=\"" + v2 + "\"")) + ">"
  {
    TwoAttrsText(Attr(k1, Some(v1)), Attr(k2, Some(v2)));
  }

  // The renderer's string constants, split into markup pieces. The split and
  // the regrouping lemmas below exist only so that each literal fact is a
  // small, separate proof obligation for the solver.

  lemma OpenLiterals()
    ensures "<p>" == "<" + "p" + ">"
    ensures "<blockquote>" == "<" + "blockquote" + ">"
    ensures "<ul>" == "<" + "ul" + ">"
    ensures "<li>" == "<" + "li" + ">"
    ensures "<em>" == "<" + "em" + ">"
    ensures "<strong>" == "<" + "strong" + ">"
    ensures "<del>" == "<" + "del" + ">"
  {
  }

  lemma CloseLiterals()
    ensures "</p>" == "</" + "p" + ">"
    ensures "</blockquote>" == "</" + "blockquote" + ">"
    ensures "</ul>" == "</" + "ul" + ">"
    ensures "</li>" == "</" + "li" + ">"
    ensures "</em>" == "</" + "em" + ">"
    ensures "</strong>" == "</" + "strong" + ">"
    ensures "</del>" == "</" + "del" + ">"
  {
  }

  lemma MoreCloseLiterals()
    ensures "</ol>" == "</" + "ol" + ">"
    ensures "</a>" == "</" + "a" + ">"
    ensures "</img>" == "</" + "img" + ">"
    ensures "</code>" == "</" + "code" + ">"
    ensures "</pre>" == "</" + "pre" + ">"
  {
  }

  lemma ShortLiterals()
    ensures "<h" == "<" + "h"
    ensures "</h" == "</" + "h"
    ensures "<code>" == "<" + "code" + ">"
    ensures "<pre>" == "<" + "pre" + ">"
    ensures "<br />" == "<" + "br" + " />"
    ensures "<hr />" == "<" + "hr" + " />"
  {
  }

  lemma QuoteLiterals()
    ensures " href=\"" == " " + "href" + "=\""
    ensures "\" title=\"" == "\"" + (" " + "title" + "=\"")
    ensures "\">" == "\"" + ">"
  {
  }

  lemma OrderedListLiterals()
    ensures "<ol start=\"" == "<ol" + " start=\""
    ensures "<ol" == "<" + "ol"
    ensures " start=\"" == " " + "start" + "=\""
  {
  }

  lemma CodeClassSplit()
    ensures "<pre><code class=\"language-" == "<pre>" + "<code class=\"language-"
  {
  }

  lemma CodeClassLiterals()
    ensures "<code class=\"language-" == "<code class=\"" + "language-"
    ensures "<code class=\"" == "<code" + " class=\""
    ensures "<code" == "<" + "code"
    ensures " class=\"" == " " + "class" + "=\""
  {
  }

  lemma CodeTagLiterals()
    ensures "<pre><code>" == "<pre>" + "<code>"
    ensures "</code></pre>" == "</code>" + "</pre>"
  {
  }

  lemma CheckboxSplit()
    ensures "<input disabled type=\"checkbox\" checked />" == "<input disabled" + " type=\"checkbox\" checked />"
  {
  }

  lemma CheckboxTailSplit()
    ensures " type=\"checkbox\" checked />" == " type=\"checkbox\"" + " checked />"
  {
  }

  lemma CheckboxHeadLiterals()
    ensures "<input disabled" == "<input" + " disabled"
    ensures "<input" == "<" + "input"
    ensures " disabled" == " " + "disabled"
    ensures " checked />" == " checked" + " />"
    ensures " checked" == " " + "checked"
  {
  }

  lemma CheckboxTypeLiterals()
    ensures " type=\"checkbox\"" == " type=\"checkbox" + "\""
    ensures " type=\"checkbox" == " type=\"" + "checkbox"
    ensures " type=\"" == " type" + "=\""
    ensures " type" == " " + "type"
  {
  }

  // Regrouping, over variables only.

  lemma Assoc(a: string, b: string, c: string)
    ensures a + b + c == a + (b + c)
  {
  }

  /** A constant `w` that ends in an attribute's opening quote, a value `v`, and a closing constant `e`. */
  lemma RegroupAttr(w: string, lt: string, name: string, k: string, sp: string, key: string, eq: string,
                    v: string, e: string, q: string, gt: string)
    requires w == lt + name + k && k == sp + key + eq && e == q + gt
    ensures w + v + e == lt + name + (sp + key + eq + v + q) + gt
  {
  }

  /** As `RegroupAttr`, for two quoted attributes with the middle constant `t` between them. */
  lemma RegroupTwoAttrs(w: string, lt: string, name: string, k: string, sp: string, key: string, eq: string,
                        u: string, t: string, q: string, key2: string, v: string, e: string, gt: string)
    requires w == lt + name + k && k == sp + key + eq && t == q + (sp + key2 + eq) && e == q + gt
    ensures (w + u) + (t + v) + e == lt + name + ((sp + key + eq + u + q) + (sp + key2 + eq + v + q)) + gt
  {
  }

  /** A constant made of a first element `p` and the start of a second up to a value prefix `f`. */
  lemma RegroupPrefixed(w: string, p: string, x: string, c: string, f: string, v: string, e: string)
    requires w == p + x && x == c + f
    ensures w + v + e == p + (c + (f + v) + e)
  {
  }

  lemma RegroupCheckbox(w: string, h: string, t: string, lt: string, name: string, d: string, ty: string,
                        tq: string, ck: string, ckd: string, sp: string, dk: string,
                        tk: string, eq: string, cv: string, q: string, kk: string, end: string)
    requires w == h + t && t == ty + ck
    requires h == lt + name + d && d == sp + dk
    requires ty == tq + q && tq == sp + tk + eq + cv
    requires ck == ckd + end && ckd == sp + kk
    ensures lt + name + ((sp + dk) + ((sp + tk + eq + cv + q) + (sp + kk))) + end == w
  {
  }

  lemma CodeClassText(lang: string)
    ensures "<pre><code class=\"language-" + lang + "\">"
         == "<" + "pre" + ">" + ("<" + "code" + (" " + "class" + "=\"" + ("language-" + lang) + "\"") + ">")
  {
    CodeClassSplit();
    CodeClassLiterals();
    QuoteLiterals();
    ShortLiterals();
    RegroupPrefixed("<pre><code class=\"language-", "<pre>", "<code class=\"language-", "<code class=\"",
                    "language-", lang, "\">");
    RegroupAttr("<code class=\"", "<", "code", " class=\"", " ", "class", "=\"", "language-" + lang,
                "\">", "\"", ">");
  }

  lemma OrderedStartText(d: string)
    ensures "<ol start=\"" + d + "\">" == "<" + "ol" + (" " + "start" + "=\"" + d + "\"") + ">"
  {
    OrderedListLiterals();
    QuoteLiterals();
    RegroupAttr("<ol start=\"", "<", "ol", " start=\"", " ", "start", "=\"", d, "\">", "\"", ">");
  }

  lemma CheckboxText()
    ensures "<" + "input" + ((" " + "disabled") + ((" " + "type" + "=\"" + "checkbox" + "\"") + (" " + "checked"))) + " />"
         == "<input disabled type=\"checkbox\" checked />"
  {
    CheckboxSplit();
    CheckboxTailSplit();
    CheckboxHeadLiterals();
    CheckboxTypeLiterals();
    RegroupCheckbox("<input disabled type=\"checkbox\" checked />", "<input disabled", " type=\"checkbox\" checked />",
                    "<", "input", " disabled", " type=\"checkbox\"", " type=\"checkbox", " checked />", " checked",
                    " ", "disabled", "type", "=\"", "checkbox", "\"", "checked", " />");
  }

  // Start and end tags.

  /** Tags that open one attribute-free element. */
  predicate IsPlain(tag: Tag) {
    || tag.Paragraph? || tag.Heading? || tag.BlockQuote? || (tag.List? && tag.start.None?)
    || tag.Item? || tag.Emphasis? || tag.Strong? || tag.Strikethrough?
  }

  lemma PlainTagRenders(tag: Tag)
    requires IsPlain(tag)
    ensures OpenNodes(tag).Some? && |OpenNodes(tag).value| == 1
    ensures var name := OpenNodes(tag).value[0].name;
      && OpenNodes(tag) == Some([Open(name, [])])
      && StartWrites(tag) == Some(["<" + name + ">"])
      && EndWrites(tag) == Some(["</" + name + ">"])
  {
    if tag.Heading? {
      var d := DecimalString(tag.level as nat);
      ShortLiterals();
      Assoc("<", "h", d);
      Assoc("</", "h", d);
    } else {
      OpenLiterals();
      CloseLiterals();
    }
  }

  lemma CodeBlockOpens(kind: CodeBlockKind)
    ensures Concat(StartWrites(CodeBlock(kind)).value) == NodesText(OpenNodes(CodeBlock(kind)).value)
  {
    var attrs := CodeAttrs(kind);
    assert OpenNodes(CodeBlock(kind)).value == [Open("pre", []), Open("code", attrs)];
    TwoNodesText(Open("pre", []), Open("code", attrs));
    BareOpenText("pre");
    OneWrite(StartWrites(CodeBlock(kind)).value[0]);
    if attrs == [] {
      BareOpenText("code");
      ShortLiterals();
      CodeTagLiterals();
    } else {
      OpenOneAttrText("code", "class", "language-" + kind.lang);
      CodeClassText(kind.lang);
    }
  }

  lemma CodeBlockCloses(kind: CodeBlockKind)
    ensures Concat(EndWrites(CodeBlock(kind)).value) == NodesText(Closing(OpenNodes(CodeBlock(kind)).value))
  {
    var ns := [Open("pre", []), Open("code", CodeAttrs(kind))];
    assert OpenNodes(CodeBlock(kind)).value == ns;
    assert Closing(ns) == [Close("code"), Close("pre")];
    TwoNodesText(Close("code"), Close("pre"));
    OneWrite("</code></pre>");
    CodeTagLiterals();
    MoreCloseLiterals();
  }

  lemma CodeBlockRenders(kind: CodeBlockKind)
    ensures Concat(StartWrites(CodeBlock(kind)).value) == NodesText(OpenNodes(CodeBlock(kind)).value)
    ensures Concat(EndWrites(CodeBlock(kind)).value) == NodesText(Closing(OpenNodes(CodeBlock(kind)).value))
  {
    CodeBlockOpens(kind);
    CodeBlockCloses(kind);
  }

  lemma OrderedListRenders(start: u64)
    ensures Concat(StartWrites(List(Some(start))).value) == NodesText(OpenNodes(List(Some(start))).value)
    ensures Concat(EndWrites(List(Some(start))).value) == NodesText(Closing(OpenNodes(List(Some(start))).value))
  {
    var d := DecimalString(start as nat);
    var a := Attr("start", Some(d));
    var n := Open("ol", [a]);
    assert OpenNodes(List(Some(start))).value == [n];
    OneNodeText(n);
    OpenOneAttrText("ol", "start", d);
    OneWrite("<ol start=\"" + d + "\">");
    OrderedStartText(d);
    assert Closing([n]) == [Close("ol")];
    OneNodeText(Close("ol"));
    OneWrite("</ol>");
    MoreCloseLiterals();
  }

  lemma HrefText(tag: string, url: string)
    ensures ("<" + tag + " href=\"" + url) + "\">" == "<" + tag + (" " + "href" + "=\"" + url + "\"") + ">"
  {
    QuoteLiterals();
    RegroupAttr("<" + tag + " href=\"", "<", tag, " href=\"", " ", "href", "=\"", url, "\">", "\"", ">");
  }

  lemma HrefTitleText(tag: string, url: string, title: string)
    ensures ("<" + tag + " href=\"" + url) + ("\" title=\"" + title) + "\">"
         == "<" + tag + ((" " + "href" + "=\"" + url + "\"") + (" " + "title" + "=\"" + title + "\"")) + ">"
  {
    QuoteLiterals();
    RegroupTwoAttrs("<" + tag + " href=\"", "<", tag, " href=\"", " ", "href", "=\"", url,
                    "\" title=\"", "\"", "title", title, "\">", ">");
  }

  lemma LinkishWithoutTitle(tag: string, ty: LinkType, dest: string)
    ensures Concat(LinkishWrites(tag, ty, dest, "")) == NodeText(Open(tag, LinkAttrs(ty, dest, "")))
  {
    var url := LinkUrl(ty, dest);
    var w := "<" + tag + " href=\"";
    var href := Attr("href", Some(url));
    assert LinkishWrites(tag, ty, dest, "") == [w + url, "\">"];
    assert LinkAttrs(ty, dest, "") == [href];
    TwoWrites(w + url, "\">");
    OpenOneAttrText(tag, "href", url);
    HrefText(tag, url);
  }

  lemma LinkishWithTitle(tag: string, ty: LinkType, dest: string, title: string)
    requires title != ""
    ensures Concat(LinkishWrites(tag, ty, dest, title)) == NodeText(Open(tag, LinkAttrs(ty, dest, title)))
  {
    var url := LinkUrl(ty, dest);
    var w := "<" + tag + " href=\"";
    var t := "\" title=\"";
    var href := Attr("href", Some(url));
    var ta := Attr("title", Some(title));
    assert LinkishWrites(tag, ty, dest, title) == [w + url, t + title, "\">"];
    assert LinkAttrs(ty, dest, title) == [href, ta];
    ThreeWrites(w + url, t + title, "\">");
    OpenTwoAttrsText(tag, "href", url, "title", title);
    HrefTitleText(tag, url, title);
  }

  /** `write_linkish` writes exactly the opening element with its attributes. */
  lemma LinkishRendersOpen(tag: string, ty: LinkType, dest: string, title: string)
    ensures Concat(LinkishWrites(tag, ty, dest, title)) == NodeText(Open(tag, LinkAttrs(ty, dest, title)))
  {
    if title == "" {
      LinkishWithoutTitle(tag, ty, dest);
    } else {
      LinkishWithTitle(tag, ty, dest, title);
    }
  }

  /** The fragments of a link or an image tag, and the element it opens. */
  lemma LinkishTag(tag: Tag)
    requires tag.Link? || tag.Image?
    ensures var name := if tag.Link? then "a" else "img";
      && StartWrites(tag) == Some(LinkishWrites(name, tag.linkType, tag.dest, tag.title))
      && EndWrites(tag) == Some(["</" + name + ">"])
      && OpenNodes(tag) == Some([Open(name, LinkAttrs(tag.linkType, tag.dest, tag.title))])
  {
    match tag
    case Link(ty, dest, title) => LinkTag(ty, dest, title);
    case Image(ty, dest, title) => ImageTag(ty, dest, title);
  }

  lemma LinkTag(ty: LinkType, dest: string, title: string)
    ensures StartWrites(Link(ty, dest, title)) == Some(LinkishWrites("a", ty, dest, title))
    ensures EndWrites(Link(ty, dest, title)) == Some(["</" + "a" + ">"])
    ensures OpenNodes(Link(ty, dest, title)) == Some([Open("a", LinkAttrs(ty, dest, title))])
  {
    assert "</a>" == "</" + "a" + ">";
  }

  lemma ImageTag(ty: LinkType, dest: string, title: string)
    ensures StartWrites(Image(ty, dest, title)) == Some(LinkishWrites("img", ty, dest, title))
    ensures EndWrites(Image(ty, dest, title)) == Some(["</" + "img" + ">"])
    ensures OpenNodes(Image(ty, dest, title)) == Some([Open("img", LinkAttrs(ty, dest, title))])
  {
    assert "</img>" == "</" + "img" + ">";
  }

  lemma LinkishRenders(tag: Tag)
    requires tag.Link? || tag.Image?
    ensures Concat(StartWrites(tag).value) == NodesText(OpenNodes(tag).value)
    ensures Concat(EndWrites(tag).value) == NodesText(Closing(OpenNodes(tag).value))
  {
    var name := if tag.Link? then "a" else "img";
    var n := Open(name, LinkAttrs(tag.linkType, tag.dest, tag.title));
    LinkishTag(tag);
    LinkishRendersOpen(name, tag.linkType, tag.dest, tag.title);
    OneNodeText(n);
    assert Closing([n]) == [Close(name)];
    OneNodeText(Close(name));
    OneWrite("</" + name + ">");
  }

  /** A tag is supported exactly when it opens elements, and its start fragment is their markup. */
  lemma StartRendersOpenNodes(tag: Tag)
    ensures StartWrites(tag).Some? <==> OpenNodes(tag).Some?
    ensures StartWrites(tag).Some? ==> Concat(StartWrites(tag).value) == NodesText(OpenNodes(tag).value)
  {
    if IsPlain(tag) {
      var name := OpenNodes(tag).value[0].name;
      PlainTagRenders(tag);
      OneWrite("<" + name + ">");
      OneNodeText(Open(name, []));
      BareOpenText(name);
    } else if tag.CodeBlock? {
      CodeBlockRenders(tag.kind);
    } else if tag.List? {
      OrderedListRenders(tag.start.value);
    } else if tag.Link? || tag.Image? {
      LinkishRenders(tag);
    }
  }

  /** Every end fragment closes, innermost first, exactly the elements the start fragment opened. */
  lemma EndClosesStart(tag: Tag)
    ensures EndWrites(tag).Some? <==> StartWrites(tag).Some?
    ensures EndWrites(tag).Some? ==> Concat(EndWrites(tag).value) == NodesText(Closing(OpenNodes(tag).value))
  {
    StartRendersOpenNodes(tag);
    if IsPlain(tag) {
      var name := OpenNodes(tag).value[0].name;
      PlainTagRenders(tag);
      OneWrite("</" + name + ">");
      assert Closing([Open(name, [])]) == [Close(name)];
      OneNodeText(Close(name));
    } else if tag.CodeBlock? {
      CodeBlockRenders(tag.kind);
    } else if tag.List? {
      OrderedListRenders(tag.start.value);
    } else if tag.Link? || tag.Image? {
      LinkishRenders(tag);
    }
  }

  // The other events.

  lemma CodeSpanRenders(code: string)
    ensures Concat(EventWrites(Code(code)).value) == NodesText(EventNodes(Code(code)).value)
  {
    ThreeWrites("<code>", code, "</code>");
    ThreeNodesText(Open("code", []), Raw(code), Close("code"));
    BareOpenText("code");
    ShortLiterals();
    MoreCloseLiterals();
    Assoc("<code>", code, "</code>");
  }

  /** The text of a void element with a bare, a quoted and a bare attribute. */
  lemma VoidThreeAttrsText(name: string, k1: string, k2: string, v2: string, k3: string)
    ensures NodesText([Void(name, [Attr(k1, None), Attr(k2, Some(v2)), Attr(k3, None)])])
         == "<" + name + ((" " + k1) + ((" " + k2 + "=\"" + v2 + "\"") + (" " + k3))) + " />"
  {
    ThreeAttrsText(Attr(k1, None), Attr(k2, Some(v2)), Attr(k3, None));
    OneNodeText(Void(name, [Attr(k1, None), Attr(k2, Some(v2)), Attr(k3, None)]));
  }

  lemma TaskListMarkerRenders(checked: bool)
    ensures Concat(EventWrites(TaskListMarker(checked)).value) == NodesText(EventNodes(TaskListMarker(checked)).value)
  {
    VoidThreeAttrsText("input", "disabled", "type", "checkbox", "checked");
    OneWrite("<input disabled type=\"checkbox\" checked />");
    CheckboxText();
  }

  /** Every event's writes are exactly its markup, and both agree on what is unsupported. */
  lemma EventRendersNodes(ev: Event)
    ensures Supported(ev) <==> EventNodes(ev).Some?
    ensures Supported(ev) ==> Concat(EventWrites(ev).value) == NodesText(EventNodes(ev).value)
  {
    match ev
    case Start(tag) => StartRendersOpenNodes(tag);
    case End(tag) => EndClosesStart(tag); StartRendersOpenNodes(tag);
    case Code(code) => CodeSpanRenders(code);
    case TaskListMarker(checked) => TaskListMarkerRenders(checked);
    case FootnoteReference(_) =>
    case HardBreak =>
      OneWrite("<br />");
      OneNodeText(Void("br", []));
      BareVoidText("br");
      ShortLiterals();
    case Rule =>
      OneWrite("<hr />");
      OneNodeText(Void("hr", []));
      BareVoidText("hr");
      ShortLiterals();
    case _ =>
      OneWrite(EventWrites(ev).value[0]);
      OneNodeText(EventNodes(ev).value[0]);
  }
}
