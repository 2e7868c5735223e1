/**
 * Nesting: the parser's guarantee that start and end events pair up, and the
 * proof that an event stream with that guarantee renders to a balanced
 * element stream.
 */
module Nesting {
  import opened Wrappers
  import opened Events
  import opened Fragments
  import opened Markup
  import opened Structure
  import opened Rendering

  /** The markup of a whole supported event sequence. */
  function TokenStream(evs: seq<Event>): seq<Node>
    requires AllSupported(evs)
  {
    if evs == [] then []
    else
      EventRendersNodes(evs[0]);
      EventNodes(evs[0]).value + TokenStream(evs[1..])
  }

  /** When nothing is unsupported, the run writes the text of the whole token stream. */
  lemma {:induction false} PlannedOutputIsMarkup(evs: seq<Event>)
    requires AllSupported(evs)
    ensures !Planned(evs).unsupported
    ensures Concat(Planned(evs).writes) == NodesText(TokenStream(evs))
  {
    if evs != [] {
      assert Supported(evs[0]);
      EventRendersNodes(evs[0]);
      assert AllSupported(evs[1..]) by {
        forall i | 0 <= i < |evs| - 1 ensures Supported(evs[1..][i]) {
          assert evs[1..][i] == evs[i + 1];
        }
      }
      PlannedOutputIsMarkup(evs[1..]);
      ConcatAppend(EventWrites(evs[0]).value, Planned(evs[1..]).writes);
      NodesTextAppend(EventNodes(evs[0]).value, TokenStream(evs[1..]));
    }
  }

  /**
   * The parser's guarantee: every `Start(t)` is closed by an `End(t)` with
   * the same payload, in LIFO order. `open` holds the tags still open,
   * outermost first.
   */
  predicate NestedFrom(evs: seq<Event>, open: seq<Tag>)
    decreases |evs|
  {
    if evs == [] then open == []
    else match evs[0]
      case Start(tag) => NestedFrom(evs[1..], open + [tag])
      case End(tag) =>
        open != [] && open[|open| - 1] == tag && NestedFrom(evs[1..], open[..|open| - 1])
      case _ => NestedFrom(evs[1..], open)
  }

  predicate WellNested(evs: seq<Event>) {
    NestedFrom(evs, [])
  }

  predicate AllTagsSupported(tags: seq<Tag>) {
    forall i :: 0 <= i < |tags| ==> OpenNodes(tags[i]).Some?
  }

  /** The element names a stack of open tags stands for, outermost first. */
  function OpenNames(tags: seq<Tag>): seq<string>
    requires AllTagsSupported(tags)
  {
    if tags == [] then []
    else OpenNames(tags[..|tags| - 1]) + Names(OpenNodes(tags[|tags| - 1]).value)
  }

  /** Events other than Start and End leave the element stack as they found it. */
  lemma LeafBalanced(ev: Event, rest: seq<Node>, open: seq<string>)
    requires !ev.Start? && !ev.End? && EventNodes(ev).Some?
    requires BalancedFrom(rest, open)
    ensures BalancedFrom(EventNodes(ev).value + rest, open)
  {
    var ns := EventNodes(ev).value + rest;
    if ev.Code? {
      assert ns[0] == Open("code", []);
      assert ns[1..][0] == Raw(ev.code);
      assert ns[1..][1..][0] == Close("code");
      assert ns[1..][1..][1..] == rest;
      assert (open + ["code"])[..|open|] == open;
    } else {
      assert ns[1..] == rest;
    }
  }

  lemma TokenStreamCons(evs: seq<Event>)
    requires evs != [] && AllSupported(evs)
    ensures AllSupported(evs[1..])
    ensures EventNodes(evs[0]).Some?
    ensures TokenStream(evs) == EventNodes(evs[0]).value + TokenStream(evs[1..])
  {
    assert Supported(evs[0]);
    EventRendersNodes(evs[0]);
    forall i | 0 <= i < |evs| - 1 ensures Supported(evs[1..][i]) {
      assert evs[1..][i] == evs[i + 1];
    }
  }

  /** A start tag pushes the names of the elements it opens. */
  lemma StartStep(tag: Tag, rest: seq<Node>, open: seq<Tag>)
    requires AllTagsSupported(open) && OpenNodes(tag).Some?
    requires AllTagsSupported(open + [tag])
    requires BalancedFrom(rest, OpenNames(open + [tag]))
    ensures BalancedFrom(OpenNodes(tag).value + rest, OpenNames(open))
  {
    var open' := open + [tag];
    assert open'[..|open'| - 1] == open;
    PushOpens(OpenNodes(tag).value, rest, OpenNames(open));
  }

  /** The matching end tag pops exactly those names. */
  lemma EndStep(tag: Tag, rest: seq<Node>, open: seq<Tag>)
    requires AllTagsSupported(open) && open != [] && open[|open| - 1] == tag
    requires AllTagsSupported(open[..|open| - 1])
    requires BalancedFrom(rest, OpenNames(open[..|open| - 1]))
    ensures BalancedFrom(Closing(OpenNodes(tag).value) + rest, OpenNames(open))
  {
    PopCloses(OpenNodes(tag).value, rest, OpenNames(open[..|open| - 1]));
  }

  /** Well-nested events of supported tags render to a balanced element stream. */
  lemma {:induction false} NestedRendersBalanced(evs: seq<Event>, open: seq<Tag>)
    requires AllSupported(evs) && AllTagsSupported(open)
    requires NestedFrom(evs, open)
    ensures BalancedFrom(TokenStream(evs), OpenNames(open))
    decreases |evs|
  {
    if evs != [] {
      var ev := evs[0];
      var rest := evs[1..];
      TokenStreamCons(evs);
      match ev
      case Start(tag) =>
        assert AllTagsSupported(open + [tag]);
        NestedRendersBalanced(rest, open + [tag]);
        StartStep(tag, TokenStream(rest), open);
      case End(tag) =>
        assert AllTagsSupported(open[..|open| - 1]);
        NestedRendersBalanced(rest, open[..|open| - 1]);
        EndStep(tag, TokenStream(rest), open);
      case _ =>
        NestedRendersBalanced(rest, open);
        LeafBalanced(ev, TokenStream(rest), OpenNames(open));
    }
  }

  /** The document-level statement: a well-nested supported document renders to balanced markup. */
  lemma WellNestedRendersBalanced(evs: seq<Event>)
    requires AllSupported(evs) && WellNested(evs)
    ensures Balanced(TokenStream(evs))
    ensures Concat(Planned(evs).writes) == NodesText(TokenStream(evs))
  {
    NestedRendersBalanced(evs, []);
    PlannedOutputIsMarkup(evs);
  }
}
