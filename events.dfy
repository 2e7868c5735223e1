/**
 * The event vocabulary the renderer consumes: the `Event`, `Tag`,
 * `LinkType` and `CodeBlockKind` types of the markdown parser library
 * (pulldown_cmark 0.8), written as closed sum types.
 */
module Events {
  import opened Wrappers

  /** Rust's `u32`, the type of a heading level. */
  newtype u32 = x: int | 0 <= x < 0x1_0000_0000

  /** Rust's `u64`, the type of an ordered list's start index. */
  newtype u64 = x: int | 0 <= x < 0x1_0000_0000_0000_0000

  /** How a link was written in the document; only `Email` matters to the renderer. */
  datatype LinkType =
    | Inline
    | Reference
    | ReferenceUnknown
    | Collapsed
    | CollapsedUnknown
    | Shortcut
    | ShortcutUnknown
    | Autolink
    | Email

  datatype CodeBlockKind = Indented | Fenced(lang: string)

  /** Column alignment of a table; carried by `Table`, never rendered. */
  datatype Alignment = NoAlignment | Left | Center | Right

  datatype Tag =
    | Paragraph
    | Heading(level: u32)
    | BlockQuote
    | CodeBlock(kind: CodeBlockKind)
    | List(start: Option<u64>)
    | Item
    | FootnoteDefinition(name: string)
    | Table(alignments: seq<Alignment>)
    | TableHead
    | TableRow
    | TableCell
    | Emphasis
    | Strong
    | Strikethrough
    | Link(linkType: LinkType, dest: string, title: string)
    | Image(linkType: LinkType, dest: string, title: string)

  /**
   * One parser event. `FootnoteReference` is the one variant the renderer's
   * dispatch has no arm for.
   */
  datatype Event =
    | Start(tag: Tag)
    | End(tag: Tag)
    | Text(text: string)
    | Code(code: string)
    | Html(html: string)
    | FootnoteReference(name: string)
    | SoftBreak
    | HardBreak
    | Rule
    | TaskListMarker(checked: bool)
}
