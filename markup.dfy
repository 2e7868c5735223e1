/**
 * A small model of HTML markup as a stream of nodes: an element opened, an
 * element closed, a void element, or raw text copied as it is. It gives the
 * renderer's byte strings an independent structural reading.
 */
module Markup {
  import opened Wrappers

  /** An attribute with a quoted value, or a bare boolean attribute. */
  datatype Attr = Attr(key: string, value: Option<string>)

  datatype Node =
    | Open(name: string, attrs: seq<Attr>)
    | Close(name: string)
    | Void(name: string, attrs: seq<Attr>)
    | Raw(text: string)

  function AttrText(a: Attr): string
  {
    match a.value
    case None => " " + a.key
    case Some(v) => " " + a.key + "=\"" + v + "\""
  }

  function AttrsText(attrs: seq<Attr>): string
  {
    if attrs == [] then "" else AttrText(attrs[0]) + AttrsText(attrs[1..])
  }

  function NodeText(n: Node): string
  {
    match n
    case Open(name, attrs) => "<" + name + AttrsText(attrs) + ">"
    case Close(name) => "</" + name + ">"
    case Void(name, attrs) => "<" + name + AttrsText(attrs) + " />"
    case Raw(text) => text
  }

  function NodesText(ns: seq<Node>): string
  {
    if ns == [] then "" else NodeText(ns[0]) + NodesText(ns[1..])
  }

  lemma {:induction false} NodesTextAppend(a: seq<Node>, b: seq<Node>)
    ensures NodesText(a + b) == NodesText(a) + NodesText(b)
  {
    if a == [] {
      assert a + b == b;
    } else {
      assert (a + b)[1..] == a[1..] + b;
      NodesTextAppend(a[1..], b);
    }
  }

  predicate HasAttr(attrs: seq<Attr>, key: string) {
    exists i :: 0 <= i < |attrs| && attrs[i].key == key
  }

  predicate AllOpen(ns: seq<Node>) {
    forall i :: 0 <= i < |ns| ==> ns[i].Open?
  }

  /** The names of a run of opening nodes, in order. */
  function Names(ns: seq<Node>): (r: seq<string>)
    requires AllOpen(ns)
    ensures |r| == |ns|
    ensures forall i :: 0 <= i < |ns| ==> r[i] == ns[i].name
  {
    seq(|ns|, i requires 0 <= i < |ns| => ns[i].name)
  }

  /** The closing nodes that match a run of opening nodes, innermost first. */
  function Closing(ns: seq<Node>): (r: seq<Node>)
    requires AllOpen(ns)
    ensures |r| == |ns|
    ensures forall i :: 0 <= i < |r| ==> r[i] == Close(ns[|ns| - 1 - i].name)
  {
    if ns == [] then [] else [Close(ns[|ns| - 1].name)] + Closing(ns[..|ns| - 1])
  }

  /**
   * `ns` closes, in LIFO order, the elements named in `open` (outermost
   * first) together with every element it opens itself.
   */
  predicate BalancedFrom(ns: seq<Node>, open: seq<string>)
    decreases |ns|
  {
    if ns == [] then open == []
    else match ns[0]
      case Open(name, _) => BalancedFrom(ns[1..], open + [name])
      case Close(name) =>
        open != [] && open[|open| - 1] == name && BalancedFrom(ns[1..], open[..|open| - 1])
      case _ => BalancedFrom(ns[1..], open)
  }

  predicate Balanced(ns: seq<Node>) {
    BalancedFrom(ns, [])
  }

  /** Opening a run of elements pushes their names on the stack. */
  lemma {:induction false} PushOpens(ns: seq<Node>, rest: seq<Node>, open: seq<string>)
    requires AllOpen(ns)
    requires BalancedFrom(rest, open + Names(ns))
    ensures BalancedFrom(ns + rest, open)
  {
    if ns == [] {
      assert ns + rest == rest;
      assert open + Names(ns) == open;
    } else {
      assert (ns + rest)[0] == ns[0];
      assert (ns + rest)[1..] == ns[1..] + rest;
      assert open + Names(ns) == (open + [ns[0].name]) + Names(ns[1..]);
      PushOpens(ns[1..], rest, open + [ns[0].name]);
    }
  }

  /** Closing the same run pops exactly those names again. */
  lemma {:induction false} PopCloses(ns: seq<Node>, rest: seq<Node>, open: seq<string>)
    requires AllOpen(ns)
    requires BalancedFrom(rest, open)
    ensures BalancedFrom(Closing(ns) + rest, open + Names(ns))
  {
    if ns == [] {
      assert Closing(ns) + rest == rest;
      assert open + Names(ns) == open;
    } else {
      var k := |ns| - 1;
      var stack := open + Names(ns);
      assert (Closing(ns) + rest)[0] == Close(ns[k].name);
      assert (Closing(ns) + rest)[1..] == Closing(ns[..k]) + rest;
      assert stack[|stack| - 1] == ns[k].name;
      assert stack[..|stack| - 1] == open + Names(ns[..k]);
      PopCloses(ns[..k], rest, open);
    }
  }
}
