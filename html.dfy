/**
 * The renderer itself: `HtmlWriter` pulls events one at a time and writes,
 * for each, its fragment to the sink, stopping at the first failed write
 * and at the first event it has not implemented.
 */
module Html {
  import opened Wrappers
  import opened Events
  import opened Fragments
  import opened Markup
  import opened Structure
  import opened Rendering
  import opened Nesting
  import opened Sinks

  /** The table section being rendered; tables are not implemented, so it stays unset. */
  datatype TableState = Head | Body

  /** How `run` ends: `Ok(())`, the sink's `Err`, or a `todo!()` panic. */
  datatype Outcome = Done | WriteFailed | Unimplemented

  function OutcomeOf(ok: bool): Outcome {
    if ok then Done else WriteFailed
  }

  /**
   * What handling one event did to the sink, from state `before` to state
   * `after`: nothing, for an event without an implementation (`writes` is
   * `None`), and otherwise exactly that event's writes.
   */
  predicate Handles(failAt: Option<nat>, before: SinkState, after: SinkState, writes: Option<seq<string>>, s: Outcome) {
    match writes
    case None => s == Unimplemented && after == before
    case Some(ws) => s != Unimplemented && Issue(before, failAt, ws) == (after, s == Done)
  }

  /**
   * One turn of the loop in `run`, stated on values: `done` went through,
   * then one event with `writes` was handled in front of the plan `rest`.
   */
  lemma RunStep(failAt: Option<nat>, st0: SinkState, before: SinkState, after: SinkState,
                done: seq<string>, writes: Option<seq<string>>, rest: Plan, s: Outcome)
    requires Issue(st0, failAt, done) == (before, true)
    requires Handles(failAt, before, after, writes, s)
    ensures var plan := Prepend(writes, rest);
      var whole := Plan(done + plan.writes, plan.unsupported);
      var issued := Issue(st0, failAt, whole.writes);
      if s == Done then
        && writes.Some?
        && Issue(st0, failAt, done + writes.value) == (after, true)
        && whole == Plan((done + writes.value) + rest.writes, rest.unsupported)
      else
        && after == issued.0
        && s == (if !issued.1 then WriteFailed else if whole.unsupported then Unimplemented else Done)
  {
    match writes
    case None =>
      assert done + [] == done;
    case Some(ws) =>
      assert done + (ws + rest.writes) == (done + ws) + rest.writes;
      IssueStep(failAt, st0, before, after, done, ws, rest.writes, s == Done);
  }

  class HtmlWriter {
    /** The events the iterator has not yet yielded. */
    var pending: seq<Event>
    const writer: Sink
    var tableState: Option<TableState>

    constructor (iter: seq<Event>, writer: Sink)
      ensures pending == iter && this.writer == writer && tableState == None
    {
      pending := iter;
      this.writer := writer;
      tableState := None;
    }

    /**
     * Writes the fragments of the pending events in order. The sink ends up
     * exactly as if the planned writes were issued one by one, stopping at
     * the first failure; a run that survives its writes ends on the first
     * unsupported event, or succeeds.
     */
    method Run() returns (r: Outcome)
      modifies this, writer
      ensures tableState == old(tableState)
      ensures var plan := Planned(old(pending));
        var issued := Issue(old(writer.State()), writer.failAt, plan.writes);
        && writer.State() == issued.0
        && r == (if !issued.1 then WriteFailed else if plan.unsupported then Unimplemented else Done)
      ensures |pending| <= |old(pending)| && pending == old(pending)[|old(pending)| - |pending|..]
      ensures r == Done ==> pending == []
    {
      ghost var st0 := writer.State();
      ghost var p0 := pending;
      ghost var done: seq<string> := [];
      ghost var consumed := 0;
      while pending != []
        invariant consumed <= |p0| && pending == p0[consumed..]
        invariant Planned(p0) == Plan(done + Planned(pending).writes, Planned(pending).unsupported)
        invariant Issue(st0, writer.failAt, done) == (writer.State(), true)
        invariant tableState == old(tableState)
        decreases |pending|
      {
        ghost var here := pending;
        ghost var before := writer.State();
        var ev := pending[0];
        pending := pending[1..];
        consumed := consumed + 1;
        var s := Dispatch(ev);
        assert Planned(here) == Prepend(EventWrites(ev), Planned(pending));
        RunStep(writer.failAt, st0, before, writer.State(), done, EventWrites(ev), Planned(pending), s);
        if s != Done {
          r := s;
          return;
        }
        done := done + EventWrites(ev).value;
      }
      assert done + [] == done;
      r := Done;
    }

    /** The `match` in the body of `run`: one event's handler. */
    method Dispatch(ev: Event) returns (s: Outcome)
      modifies writer
      ensures Handles(writer.failAt, old(writer.State()), writer.State(), EventWrites(ev), s)
    {
      match ev {
        case Start(tag) => s := StartTag(tag);
        case End(tag) => s := EndTag(tag);
        case Text(text) => var ok := WriteText(text); s := OutcomeOf(ok);
        case Code(code) => var ok := WriteCode(code); s := OutcomeOf(ok);
        case Html(html) => var ok := WriteHtml(html); s := OutcomeOf(ok);
        case SoftBreak => var ok := WriteNewline(); s := OutcomeOf(ok);
        case HardBreak => var ok := WriteBreak(); s := OutcomeOf(ok);
        case Rule => var ok := WriteRule(); s := OutcomeOf(ok);
        case TaskListMarker(checked) => var ok := WriteTaskListMarker(checked); s := OutcomeOf(ok);
        case FootnoteReference(_) => s := Unimplemented;
      }
    }

    method WriteTaskListMarker(checked: bool) returns (ok: bool)
      modifies writer
      ensures writer.Did(old(writer.State()), EventWrites(TaskListMarker(checked)).value, ok)
    {
      if checked {
        ok := writer.Write("<input disabled type=\"checkbox\" checked />");
      } else {
        ok := writer.Write("<input disabled type=\"checkbox\" checked />");
      }
    }

    method WriteRule() returns (ok: bool)
      modifies writer
      ensures writer.Did(old(writer.State()), EventWrites(Rule).value, ok)
    {
      ok := writer.Write("<hr />");
    }

    method WriteBreak() returns (ok: bool)
      modifies writer
      ensures writer.Did(old(writer.State()), EventWrites(HardBreak).value, ok)
    {
      ok := writer.Write("<br />");
    }

    method WriteNewline() returns (ok: bool)
      modifies writer
      ensures writer.Did(old(writer.State()), EventWrites(SoftBreak).value, ok)
    {
      ok := writer.Write("\n");
    }

    /** Raw HTML goes through the text path unchanged. */
    method WriteHtml(html: string) returns (ok: bool)
      modifies writer
      ensures writer.Did(old(writer.State()), EventWrites(Text(html)).value, ok)
      ensures writer.Did(old(writer.State()), EventWrites(Html(html)).value, ok)
    {
      ok := WriteText(html);
    }

    method WriteCode(code: string) returns (ok: bool)
      modifies writer
      ensures writer.Did(old(writer.State()), ["<code>", code, "</code>"], ok)
      ensures writer.Did(old(writer.State()), EventWrites(Code(code)).value, ok)
    {
      ghost var s0 := writer.State();
      ok := writer.Write("<code>");
      IssueAppend(s0, writer.failAt, ["<code>"], [code, "</code>"]);
      if !ok {
        return;
      }
      ghost var s1 := writer.State();
      ok := WriteText(code);
      IssueAppend(s1, writer.failAt, [code], ["</code>"]);
      if !ok {
        return;
      }
      ghost var s2 := writer.State();
      ok := writer.Write("</code>");
      assert [code, "</code>"] == [code] + ["</code>"];
      assert ["<code>", code, "</code>"] == ["<code>"] + [code, "</code>"];
    }

    /** Text is written as it is, in one write, without escaping. */
    method WriteText(text: string) returns (ok: bool)
      modifies writer
      ensures writer.Did(old(writer.State()), [text], ok)
      ensures writer.Did(old(writer.State()), EventWrites(Text(text)).value, ok)
    {
      ok := writer.Write(text);
    }

    method WriteLinkish(tag: string, ty: LinkType, dest: string, title: string) returns (ok: bool)
      modifies writer
      ensures writer.Did(old(writer.State()), LinkishWrites(tag, ty, dest, title), ok)
    {
      ghost var s0 := writer.State();
      var head := "<" + tag + " href=\"" + LinkUrl(ty, dest);
      var middle := if title != "" then ["\" title=\"" + title] else [];
      assert LinkishWrites(tag, ty, dest, title) == [head] + (middle + ["\">"]);
      ok := writer.Write(head);
      IssueAppend(s0, writer.failAt, [head], middle + ["\">"]);
      if !ok {
        return;
      }
      ghost var s1 := writer.State();
      if title != "" {
        ok := writer.Write("\" title=\"" + title);
        IssueAppend(s1, writer.failAt, middle, ["\">"]);
        if !ok {
          return;
        }
      }
      ghost var s2 := writer.State();
      assert Issue(s1, writer.failAt, middle) == (s2, true);
      ok := writer.Write("\">");
    }

    method StartTag(tag: Tag) returns (r: Outcome)
      modifies writer
      ensures StartWrites(tag).None? ==> r == Unimplemented && writer.State() == old(writer.State())
      ensures StartWrites(tag).Some? ==>
        r != Unimplemented && writer.Did(old(writer.State()), StartWrites(tag).value, r == Done)
    {
      var ok: bool;
      match tag {
        case Paragraph => ok := writer.Write("<p>");
        case Heading(level) => ok := writer.Write("<h" + Decimal.DecimalString(level as nat) + ">");
        case Table(_) => return Unimplemented;
        case TableHead => return Unimplemented;
        case TableRow => return Unimplemented;
        case TableCell => return Unimplemented;
        case BlockQuote => ok := writer.Write("<blockquote>");
        case CodeBlock(kind) =>
          match kind {
            case Fenced(lang) =>
              if lang == "" {
                ok := writer.Write("<pre><code>");
              } else {
                ok := writer.Write("<pre><code class=\"language-" + lang + "\">");
              }
            case Indented => ok := writer.Write("<pre><code>");
          }
        case List(Some(start)) => ok := writer.Write("<ol start=\"" + Decimal.DecimalString(start as nat) + "\">");
        case List(None) => ok := writer.Write("<ul>");
        case Item => ok := writer.Write("<li>");
        case Emphasis => ok := writer.Write("<em>");
        case Strong => ok := writer.Write("<strong>");
        case Strikethrough => ok := writer.Write("<del>");
        case Link(ty, dest, title) => ok := WriteLinkish("a", ty, dest, title);
        case Image(ty, dest, title) => ok := WriteLinkish("img", ty, dest, title);
        case FootnoteDefinition(_) => return Unimplemented;
      }
      r := OutcomeOf(ok);
    }

    method EndTag(tag: Tag) returns (r: Outcome)
      modifies writer
      ensures EndWrites(tag).None? ==> r == Unimplemented && writer.State() == old(writer.State())
      ensures EndWrites(tag).Some? ==>
        r != Unimplemented && writer.Did(old(writer.State()), EndWrites(tag).value, r == Done)
    {
      var ok: bool;
      match tag {
        case Paragraph => ok := writer.Write("</p>");
        case Heading(level) => ok := writer.Write("</h" + Decimal.DecimalString(level as nat) + ">");
        case Table(_) => return Unimplemented;
        case TableHead => return Unimplemented;
        case TableRow => return Unimplemented;
        case TableCell => return Unimplemented;
        case BlockQuote => ok := writer.Write("</blockquote>");
        case CodeBlock(_) => ok := writer.Write("</code></pre>");
        case List(Some(_)) => ok := writer.Write("</ol>");
        case List(None) => ok := writer.Write("</ul>");
        case Item => ok := writer.Write("</li>");
        case Emphasis => ok := writer.Write("</em>");
        case Strong => ok := writer.Write("</strong>");
        case Strikethrough => ok := writer.Write("</del>");
        case Link(_, _, _) => ok := writer.Write("</a>");
        case Image(_, _, _) => ok := writer.Write("</img>");
        case FootnoteDefinition(_) => return Unimplemented;
      }
      r := OutcomeOf(ok);
    }
  }

  /**
   * The driver's use of the renderer: a fresh in-memory buffer, which never
   * fails, and one run over the parser's events. Every planned write lands
   * in the buffer; a supported document comes out as its markup, and a
   * well-nested one as balanced markup.
   */
  method Htmlify(events: seq<Event>) returns (html: string, r: Outcome)
    ensures r == (if Planned(events).unsupported then Unimplemented else Done)
    ensures html == Concat(Planned(events).writes)
    ensures AllSupported(events) ==> r == Done && html == NodesText(TokenStream(events))
    ensures AllSupported(events) && WellNested(events) ==> Balanced(TokenStream(events))
  {
    var output := new Sink(None);
    var renderer := new HtmlWriter(events, output);
    r := renderer.Run();
    html := output.output;
    NeverFailingSink(SinkState([], 0), Planned(events).writes);
    if AllSupported(events) {
      PlannedOutputIsMarkup(events);
      if WellNested(events) {
        NestedRendersBalanced(events, []);
      }
    }
  }
}
