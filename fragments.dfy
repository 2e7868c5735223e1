/**
 * What the renderer writes, as pure functions: for every event, the list of
 * strings its handler passes to `write!`, one entry per call, in order.
 * `None` stands for a handler that reaches `todo!()` before writing.
 */
module Fragments {
  import opened Wrappers
  import opened Events
  import opened Decimal

  /** The text a list of writes puts on the sink when every write succeeds. */
  function Concat(ws: seq<string>): string
  {
    if ws == [] then "" else ws[0] + Concat(ws[1..])
  }

  lemma {:induction false} ConcatAppend(a: seq<string>, b: seq<string>)
    ensures Concat(a + b) == Concat(a) + Concat(b)
  {
    if a == [] {
      assert a + b == b;
    } else {
      assert (a + b)[1..] == a[1..] + b;
      ConcatAppend(a[1..], b);
    }
  }

  /**
   * The URL a link or image points to: an email destination gains the mail
   * scheme, every other destination is kept as it is.
   */
  function LinkUrl(ty: LinkType, url: string): (r: string)
    ensures |r| >= |url| && r[|r| - |url|..] == url
    ensures r == url <==> !ty.Email?
    ensures ty.Email? ==> r[..|r| - |url|] == "mailto:"
  {
    match ty
    case Email => "mailto:" + url
    case _ => url
  }

  /** The writes of `write_linkish`: the title attribute is written only for a non-empty title. */
  function LinkishWrites(tag: string, ty: LinkType, dest: string, title: string): seq<string>
  {
    ["<" + tag + " href=\"" + LinkUrl(ty, dest)]
    + (if title != "" then ["\" title=\"" + title] else [])
    + ["\">"]
  }

  /** The tags whose rendering is a `todo!()` stub. */
  predicate Stubbed(tag: Tag) {
    tag.Table? || tag.TableHead? || tag.TableRow? || tag.TableCell? || tag.FootnoteDefinition?
  }

  /** The writes of `start_tag`; `None` for the table and footnote tags. */
  function StartWrites(tag: Tag): (r: Option<seq<string>>)
    ensures r.None? <==> Stubbed(tag)
    ensures r.Some? ==> |r.value| >= 1
  {
    match tag
    case Paragraph => Some(["<p>"])
    case Heading(level) => Some(["<h" + DecimalString(level as nat) + ">"])
    case Table(_) => None
    case TableHead => None
    case TableRow => None
    case TableCell => None
    case BlockQuote => Some(["<blockquote>"])
    case CodeBlock(Fenced(lang)) =>
      if lang == "" then Some(["<pre><code>"])
      else Some(["<pre><code class=\"language-" + lang + "\">"])
    case CodeBlock(Indented) => Some(["<pre><code>"])
    case List(Some(start)) => Some(["<ol start=\"" + DecimalString(start as nat) + "\">"])
    case List(None) => Some(["<ul>"])
    case Item => Some(["<li>"])
    case Emphasis => Some(["<em>"])
    case Strong => Some(["<strong>"])
    case Strikethrough => Some(["<del>"])
    case Link(ty, dest, title) => Some(LinkishWrites("a", ty, dest, title))
    case Image(ty, dest, title) => Some(LinkishWrites("img", ty, dest, title))
    case FootnoteDefinition(_) => None
  }

  /** The writes of `end_tag`; `None` for the table and footnote tags. */
  function EndWrites(tag: Tag): (r: Option<seq<string>>)
    ensures r.None? <==> Stubbed(tag)
    ensures r.Some? ==> |r.value| == 1
  {
    match tag
    case Paragraph => Some(["</p>"])
    case Heading(level) => Some(["</h" + DecimalString(level as nat) + ">"])
    case Table(_) => None
    case TableHead => None
    case TableRow => None
    case TableCell => None
    case BlockQuote => Some(["</blockquote>"])
    case CodeBlock(_) => Some(["</code></pre>"])
    case List(Some(_)) => Some(["</ol>"])
    case List(None) => Some(["</ul>"])
    case Item => Some(["</li>"])
    case Emphasis => Some(["</em>"])
    case Strong => Some(["</strong>"])
    case Strikethrough => Some(["</del>"])
    case Link(_, _, _) => Some(["</a>"])
    case Image(_, _, _) => Some(["</img>"])
    case FootnoteDefinition(_) => None
  }

  /** The writes the dispatch in `run` performs for one event. */
  function EventWrites(ev: Event): (r: Option<seq<string>>)
    ensures r.None? <==> ev.FootnoteReference? || ((ev.Start? || ev.End?) && Stubbed(ev.tag))
  {
    match ev
    case Start(tag) => StartWrites(tag)
    case End(tag) => EndWrites(tag)
    case Text(text) => Some([text])
    case Code(code) => Some(["<code>", code, "</code>"])
    case Html(html) => Some([html])
    case SoftBreak => Some(["\n"])
    case HardBreak => Some(["<br />"])
    case Rule => Some(["<hr />"])
    case TaskListMarker(checked) =>
      if checked then Some(["<input disabled type=\"checkbox\" checked />"])
      else Some(["<input disabled type=\"checkbox\" checked />"])
    case FootnoteReference(_) => None
  }

  predicate Supported(ev: Event) {
    EventWrites(ev).Some?
  }

  predicate AllSupported(evs: seq<Event>) {
    forall i :: 0 <= i < |evs| ==> Supported(evs[i])
  }

  /**
   * What `run` will try to do with an event sequence: the writes it issues
   * in order, and whether it then stops at an unsupported event.
   */
  datatype Plan = Plan(writes: seq<string>, unsupported: bool)

  /** One event's writes (`None` if it is unsupported) in front of what follows it. */
  function Prepend(writes: Option<seq<string>>, rest: Plan): Plan
  {
    match writes
    case None => Plan([], true)
    case Some(ws) => Plan(ws + rest.writes, rest.unsupported)
  }

  function Planned(evs: seq<Event>): Plan
  {
    if evs == [] then Plan([], false) else Prepend(EventWrites(evs[0]), Planned(evs[1..]))
  }

  /** The run stops exactly when some event is unsupported. */
  lemma {:induction false} PlannedUnsupportedIff(evs: seq<Event>)
    ensures Planned(evs).unsupported <==> exists i :: 0 <= i < |evs| && !Supported(evs[i])
  {
    if evs != [] {
      PlannedUnsupportedIff(evs[1..]);
      if Supported(evs[0]) {
        if exists i :: 0 <= i < |evs| && !Supported(evs[i]) {
          var i :| 0 <= i < |evs| && !Supported(evs[i]);
          assert !Supported(evs[1..][i - 1]);
        }
        if exists i :: 0 <= i < |evs| - 1 && !Supported(evs[1..][i]) {
          var i :| 0 <= i < |evs| - 1 && !Supported(evs[1..][i]);
          assert !Supported(evs[i + 1]);
        }
      } else {
        assert !Supported(evs[0]);
      }
    }
  }

  /**
   * Events before the first unsupported one are written in full; nothing
   * from that event or after it is written.
   */
  lemma {:induction false} PlannedStopsAtFirstUnsupported(evs: seq<Event>, i: nat)
    requires i < |evs| && !Supported(evs[i])
    requires forall j :: 0 <= j < i ==> Supported(evs[j])
    ensures Planned(evs) == Plan(Planned(evs[..i]).writes, true)
  {
    if i == 0 {
      assert evs[..i] == [];
    } else {
      assert evs[1..][..i - 1] == evs[..i][1..];
      PlannedStopsAtFirstUnsupported(evs[1..], i - 1);
    }
  }

  lemma PrependAppend(w: seq<string>, restA: Plan, restAB: Plan, b: Plan)
    requires restAB == Plan(restA.writes + b.writes, b.unsupported)
    ensures Prepend(Some(w), restAB) == Plan(Prepend(Some(w), restA).writes + b.writes, b.unsupported)
  {
    assert w + (restA.writes + b.writes) == (w + restA.writes) + b.writes;
  }

  lemma AllSupportedTail(evs: seq<Event>)
    requires evs != [] && AllSupported(evs)
    ensures Supported(evs[0]) && AllSupported(evs[1..])
  {
    forall i | 0 <= i < |evs| - 1 ensures Supported(evs[1..][i]) {
      assert evs[1..][i] == evs[i + 1];
    }
  }

  /** After a fully supported prefix, the run's writes are the prefix's followed by the rest's. */
  lemma {:induction false} PlannedAppend(a: seq<Event>, b: seq<Event>)
    requires AllSupported(a)
    ensures Planned(a + b) == Plan(Planned(a).writes + Planned(b).writes, Planned(b).unsupported)
  {
    if a == [] {
      assert a + b == b;
    } else {
      var w := EventWrites(a[0]);
      AllSupportedTail(a);
      assert (a + b)[0] == a[0] && (a + b)[1..] == a[1..] + b;
      assert Planned(a + b) == Prepend(w, Planned(a[1..] + b));
      assert Planned(a) == Prepend(w, Planned(a[1..]));
      PlannedAppend(a[1..], b);
      PrependAppend(w.value, Planned(a[1..]), Planned(a[1..] + b), Planned(b));
    }
  }

  /** Raw HTML takes the text path: one write of the same bytes, without escaping. */
  lemma HtmlWritesAsText(h: string)
    ensures EventWrites(Html(h)) == EventWrites(Text(h)) == Some([h])
  {
  }

  /** The checkbox a task marker writes does not depend on the marker's flag. */
  lemma TaskListMarkerIgnoresFlag()
    ensures EventWrites(TaskListMarker(true)) == EventWrites(TaskListMarker(false))
  {
  }

  lemma StripFrame(p: string, x: string, y: string, q: string)
    requires p + x + q == p + y + q
    ensures x == y
  {
    assert |x| == |y|;
    assert x == (p + x + q)[|p|..|p| + |x|];
    assert y == (p + y + q)[|p|..|p| + |y|];
  }

  /** Two headings open alike, and close alike, exactly when their levels agree. */
  lemma HeadingFragmentsDistinct(a: u32, b: u32)
    ensures StartWrites(Heading(a)) == StartWrites(Heading(b)) <==> a == b
    ensures EndWrites(Heading(a)) == EndWrites(Heading(b)) <==> a == b
  {
    var da, db := DecimalString(a as nat), DecimalString(b as nat);
    DecimalInjective(a as nat, b as nat);
    if StartWrites(Heading(a)) == StartWrites(Heading(b)) {
      assert ["<h" + da + ">"][0] == ["<h" + db + ">"][0];
      StripFrame("<h", da, db, ">");
    }
    if EndWrites(Heading(a)) == EndWrites(Heading(b)) {
      assert ["</h" + da + ">"][0] == ["</h" + db + ">"][0];
      StripFrame("</h", da, db, ">");
    }
  }

  /**
   * Lists open alike exactly when their starts agree: an ordered list never
   * opens like a bullet list, and the start number is recoverable.
   */
  lemma ListOpensDistinct(a: Option<u64>, b: Option<u64>)
    ensures StartWrites(List(a)) == StartWrites(List(b)) <==> a == b
  {
    if StartWrites(List(a)) == StartWrites(List(b)) {
      if a.Some? && b.Some? {
        var da, db := DecimalString(a.value as nat), DecimalString(b.value as nat);
        assert ["<ol start=\"" + da + "\">"][0] == ["<ol start=\"" + db + "\">"][0];
        StripFrame("<ol start=\"", da, db, "\">");
        DecimalInjective(a.value as nat, b.value as nat);
      } else if a.Some? {
        OrderedNotBullet(a.value);
      } else if b.Some? {
        OrderedNotBullet(b.value);
      }
    }
  }

  lemma OrderedNotBullet(start: u64)
    ensures StartWrites(List(Some(start))) != StartWrites(List(None))
  {
    var w := "<ol start=\"" + DecimalString(start as nat) + "\">";
    assert w[1] == 'o';
    assert "<ul>"[1] == 'u';
    assert [w][0] != ["<ul>"][0];
  }

  /** The closing fragment of a list tells only which kind of list it closes. */
  lemma ListClosesByKind(a: Option<u64>, b: Option<u64>)
    ensures EndWrites(List(a)) == EndWrites(List(b)) <==> a.Some? == b.Some?
  {
    assert "</ol>"[2] != "</ul>"[2];
  }
}
