# HtmlWriter: a verified model of the markdown-to-HTML event renderer

The renderer in `src/html.rs` turns the event stream of a markdown parser
into HTML. `HtmlWriter::new` binds an event iterator and an output sink.
`run` then pulls the events one at a time and writes one fixed fragment per
event:

- start and end tags become opening and closing elements;
- text and raw HTML are copied unescaped;
- inline code is wrapped in `code`;
- soft breaks, hard breaks and rules become a newline, `<br />` and `<hr />`;
- task markers become checkbox inputs;
- links and images get `href` and, when there is a title, `title`; an email
  destination gains a `mailto:` prefix.

The loop stops at the first failed write. The table and footnote constructs,
and the events the dispatch does not match, abort with `todo!()`.

The model has ten modules, layered by concern: the parser's data, number
formatting, the fragments the source writes, the sink, the independent
reading of the output as HTML, and the renderer itself. `Wrappers` holds the
`Option` type the others share.

- `Events` (events.dfy): the parser's event, tag, link-type and
  code-block-kind types, with the `u32` heading level and the `u64` list start
  as bounded newtypes.
- `Decimal` (decimal.dfy): how Rust's `{}` formats an unsigned integer.
- `Fragments` (fragments.dfy): the pure layer. For every tag and event it
  gives the exact sequence of strings the `write!` calls of
  `start_tag`/`end_tag`/`run` pass to the sink, with `None` for the `todo!()`
  branches. `Planned` gives the writes a whole run attempts, and whether the
  run then reaches an unsupported event. It also proves that headings and
  lists of different parameters open differently.
- `Sinks` (sink.dfy): the sink as a class. It has an output buffer, an
  attempt counter and a failure schedule, meaning the index of the write
  attempt that fails, if any. `Issue` is the reference semantics of a
  sequence of writes.
- `Markup`, `Structure`, `Rendering` and `Nesting` (markup.dfy,
  structure.dfy, rendering.dfy, nesting.dfy): an independent reading of the
  output as HTML nodes (opening, closing, void, raw text). They prove three
  things:
  - every fragment is exactly the text of its nodes;
  - every end tag closes, innermost first, the elements its start tag opened;
  - a well-nested event stream renders to a balanced element stream.
- `Html` (html.dfy): the `HtmlWriter` class, imperative as in the source. Its
  fields are the pending events, the sink and the table state. Its methods
  are `Run`, with a `while` loop and its invariants, and one method per
  `write_*`, `start_tag` and `end_tag`. Each is proved against the fragment
  layer. `Htmlify` is the driver's use of the renderer: a fresh in-memory
  buffer and one run.

A `todo!()` panic is modelled as the outcome `Unimplemented` of `Run`. It
writes nothing for that event, and the loop stops there. A failed write is
the outcome `WriteFailed`, and the sink keeps what was written before it.

Three behaviours of the code are modelled as written, although a reader
might expect otherwise. The heading level is the parser's `u32`, not a
number from 1 to 6. Both branches of `write_task_list_marker` write the
`checked` checkbox. Images close with `</img>`.

## Model

| member | source | states |
|---|---|---|
| `Decimal.DecimalString` | src/html.rs:124 | the formatted level or start is a non-empty digit string with a leading zero only for zero |
| `Decimal.DecimalRoundTrip` | src/html.rs:140 | reading the digits back gives the number that was formatted |
| `Decimal.DecimalInjective` | src/html.rs:140 | two numbers format alike if and only if they are equal |
| `Fragments.LinkUrl` | src/html.rs:178-183 | the result ends with the destination; it equals the destination if and only if the link is not an email link, and an email link is prefixed by exactly `mailto:` |
| `Fragments.StartWrites` | src/html.rs:119-151 | a start tag is unwritable exactly for the four table tags and the footnote definition, and otherwise writes at least one fragment |
| `Fragments.EndWrites` | src/html.rs:153-175 | an end tag is unwritable exactly for the table and footnote tags, and otherwise writes one fragment |
| `Fragments.EventWrites` | src/html.rs:44-56 | an event is unsupported exactly when it is a footnote reference or a start or end of a table or footnote tag |
| `Fragments.PlannedUnsupportedIff` | src/html.rs:44-57 | the run stops at an unsupported event if and only if the event sequence holds one |
| `Fragments.PlannedStopsAtFirstUnsupported` | src/html.rs:44-57 | the run attempts exactly the writes of the events before the first unsupported one |
| `Fragments.PlannedAppend` | src/html.rs:44-57 | after a fully supported prefix, the run's writes are the prefix's writes followed by the rest's |
| `Fragments.HtmlWritesAsText` | src/html.rs:86-101 | raw HTML is one write of the same bytes that text writes, with no escaping |
| `Fragments.TaskListMarkerIgnoresFlag` | src/html.rs:61-68 | a checked and an unchecked task marker write the same checkbox |
| `Fragments.HeadingFragmentsDistinct` | src/html.rs:119-175 | two headings open alike, and close alike, if and only if their levels are equal |
| `Fragments.ListOpensDistinct` | src/html.rs:140-141 | two lists open alike if and only if their optional starts are equal, so an ordered list never opens like a bullet list |
| `Fragments.OrderedNotBullet` | src/html.rs:140-141 | an ordered list's opening differs from a bullet list's |
| `Fragments.ListClosesByKind` | src/html.rs:164-165 | two lists close alike if and only if both or neither are ordered |
| `Structure.CodeAttrs` | src/html.rs:130-139 | a code block's `code` element has a class attribute if and only if it is fenced with a non-empty language, and that attribute is `language-` followed by the language |
| `Structure.LinkAttrs` | src/html.rs:103-116 | a link's first attribute is `href` with the rewritten URL, and a `title` attribute is present if and only if the title is non-empty, as the second and last attribute |
| `Structure.OpenNodes` | src/html.rs:119-151 | a supported tag opens at least one element and only opening nodes |
| `Rendering.PlainTagRenders` | src/html.rs:119-175 | each attribute-free tag opens one element and writes exactly its opening and closing markup |
| `Rendering.CodeBlockRenders` | src/html.rs:130-163 | a code block writes exactly the markup of `pre` and `code` with its class, and closes them innermost first |
| `Rendering.OrderedListRenders` | src/html.rs:140-164 | an ordered list writes exactly an `ol` element with a `start` attribute holding the start, and closes it |
| `Rendering.LinkishRendersOpen` | src/html.rs:103-116 | `write_linkish` writes exactly the opening element with `href` and, for a non-empty title, `title` |
| `Rendering.LinkishRenders` | src/html.rs:145-170 | links and images write exactly their opening element and close the same element |
| `Rendering.StartRendersOpenNodes` | src/html.rs:119-151 | a start tag is supported if and only if it opens elements, and then writes exactly their markup |
| `Rendering.EndClosesStart` | src/html.rs:153-175 | an end tag is supported exactly when its start tag is, and writes exactly the closing markup of the elements the start opened, innermost first |
| `Rendering.CodeSpanRenders` | src/html.rs:90-95 | inline code writes exactly an opening `code`, the code unchanged and a closing `code` |
| `Rendering.TaskListMarkerRenders` | src/html.rs:61-68 | a task marker writes exactly a void `input` with the `disabled`, `type` and `checked` attributes |
| `Rendering.EventRendersNodes` | src/html.rs:44-56 | every event is supported exactly when it has markup, and then writes exactly that markup |
| `Nesting.PlannedOutputIsMarkup` | src/html.rs:42-59 | for a fully supported event stream the run reaches no unsupported event and writes exactly the text of the whole node stream |
| `Nesting.NestedRendersBalanced` | src/html.rs:119-175 | well-nested events under a stack of open tags render to nodes that close exactly the names those tags opened |
| `Nesting.WellNestedRendersBalanced` | src/html.rs:42-59 | a well-nested, supported document renders to a balanced element stream whose text is the run's output |
| `Sinks.Accepted` | src/html.rs:44-57 | of a run of writes, all go through unless the scheduled failure falls among them, and then exactly those before it |
| `Sinks.IssueClosedForm` | src/html.rs:44-57 | issuing writes appends exactly those before the failing one, attempts the failing one, and attempts nothing after it |
| `Sinks.IssueAppend` | src/html.rs:90-95 | issuing two runs of writes is issuing the first and, only if it succeeded, the second |
| `Sinks.NeverFailingSink` | src/main.rs:31-34 | a sink with no scheduled failure accepts every write, appending their concatenation |
| `Sinks.Sink.constructor` | src/main.rs:31 | a fresh sink is empty, has seen no attempts, and keeps its failure schedule |
| `Sinks.Sink.Write` | src/html.rs:70-73 | one `write!` is one attempt, which either appends the whole string or fails, appending nothing |
| `Html.RunStep` | src/html.rs:44-56 | one turn of the loop either extends the successful prefix by the event's writes or ends the run with the outcome of the whole plan |
| `Html.HtmlWriter.constructor` | src/html.rs:34-40 | the renderer holds the given events and sink, and no table state |
| `Html.HtmlWriter.Run` | src/html.rs:42-59 | the sink ends exactly as if the planned writes were issued in order up to the first failure; the outcome is the failure, else an unsupported event, else success; the table state is unchanged; a successful run consumes every event |
| `Html.HtmlWriter.Dispatch` | src/html.rs:45-56 | each event's handler does exactly that event's writes, or for an unsupported event nothing and `Unimplemented` |
| `Html.HtmlWriter.WriteTaskListMarker` | src/html.rs:61-68 | writes the checkbox, whatever the flag |
| `Html.HtmlWriter.WriteRule` | src/html.rs:70-73 | writes `<hr />` |
| `Html.HtmlWriter.WriteBreak` | src/html.rs:75-78 | writes `<br />` |
| `Html.HtmlWriter.WriteNewline` | src/html.rs:80-83 | writes a newline |
| `Html.HtmlWriter.WriteHtml` | src/html.rs:86-88 | writes exactly what `WriteText` writes for the same string |
| `Html.HtmlWriter.WriteCode` | src/html.rs:90-95 | three writes in order, the opening `code`, the code and the closing `code`, stopping at the first failure |
| `Html.HtmlWriter.WriteText` | src/html.rs:98-101 | one write of the text unchanged |
| `Html.HtmlWriter.WriteLinkish` | src/html.rs:103-116 | the `href` write, the `title` write only for a non-empty title, then the closing quote and bracket, stopping at the first failure |
| `Html.HtmlWriter.StartTag` | src/html.rs:119-151 | an unsupported tag writes nothing and yields `Unimplemented`; any other does exactly its start writes |
| `Html.HtmlWriter.EndTag` | src/html.rs:153-175 | an unsupported tag writes nothing and yields `Unimplemented`; any other does exactly its end write |
| `Html.Htmlify` | src/main.rs:31-35 | into an in-memory buffer the output is all planned writes; a supported document renders completely to the text of its markup, and a well-nested one to balanced markup |

## Left out

- The markdown parser: its output is a given sequence of events, read eagerly rather than pulled lazily, and well-nestedness is a precondition of the nesting theorem.
- The command line, file reading, printing and templating of `src/main.rs`: these are I/O and library glue.
- The conversion of the output bytes to UTF-8 text (src/main.rs:35): output is a string of characters.
- The kinds of I/O error: a failed write is only "failed", fixed in advance by the schedule, and appends nothing. Partial writes are not modelled.
- How `write!` splits a formatted string into calls of `write`: each `write!` is one append.
- A `write!` whose output is empty, such as `Text("")` or the middle write of `Code("")` (src/html.rs:99), still counts as one attempt that the schedule can fail. The real formatter issues no call to the sink for it, so the index of the failing attempt can differ from the number of calls the real sink sees.
- The `todo!()` panics: they are an outcome of `Run` rather than an unwinding of the renderer.
- Table and footnote rendering, and any use of the table state: the source has only stubs, so these tags are modelled as unsupported and the table state as a field that is never changed.
- HTML escaping: the source writes text and attribute values unescaped, and so does the model. The balance theorem is about the node stream, not about how a browser would read text containing markup.
- Html.HtmlWriter.Run: after a failure or an unsupported event, the events still pending are stated only as a suffix of the original events, not as exactly those after the event where the run stopped.
- The `match` inside `run`'s loop is a method of its own, `Dispatch`, which the source does not have; it changes nothing in what is modelled.
