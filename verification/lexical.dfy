/** The Lexical editor-state helpers of src/lib/utils/post.ts: truncating a post's rich
    text to a character budget, and counting its characters. */
module Lexical {
  import opened Common

  /** The fields of a JSON node the helpers copy without looking at them. */
  type Attrs = map<string, string>

  /** A Lexical node: a text node, a paragraph with a `children` array, or any other node
      (a paragraph whose `children` is missing or null counts as other: both walks treat
      it so). */
  datatype Node =
    | Text(text: string, attrs: Attrs)
    | Paragraph(children: seq<Node>, attrs: Attrs)
    | Other(kind: string, attrs: Attrs)

  datatype Root = Root(children: Option<seq<Node>>, attrs: Attrs)
  datatype EditorState = EditorState(root: Option<Root>, attrs: Attrs)

  const Ellipsis := "…"
  const DefaultLimit := 200

  /** The outcome of walking a list of nodes: the nodes kept, the characters counted so far
      and whether the budget ran out. */
  datatype Walked = Walked(out: seq<Node>, count: int, done: bool)

  function Prepend(prefix: seq<Node>, w: Walked): Walked {
    Walked(prefix + w.out, w.count, w.done)
  }

  /** What one node contributes when the walk reaches it with `count` characters used:
      a paragraph with children is walked into, a text node is kept while it fits and cut
      (with an ellipsis, if any room is left) when it does not, anything else is dropped. */
  function WalkHead(node: Node, limit: int, count: int): Walked
    decreases node, 0
  {
    match node
    case Paragraph(children, attrs) =>
      var inner := Walk(children, limit, count);
      Walked([Paragraph(inner.out, attrs)], inner.count, inner.done)
    case Text(text, attrs) =>
      if count + |text| <= limit then Walked([node], count + |text|, false)
      else if limit - count > 0 then Walked([Text(text[..limit - count] + Ellipsis, attrs)], count, true)
      else Walked([], count, true)
    case _ => Walked([], count, false)
  }

  /** `walkNodes` of `truncateLexicalJson`, entered while the budget is not exhausted; the
      walk stops at the first node after the budget runs out. */
  function Walk(nodes: seq<Node>, limit: int, count: int): Walked
    decreases nodes, 1
  {
    if nodes == [] then Walked([], count, false)
    else
      var head := WalkHead(nodes[0], limit, count);
      if head.done then head
      else Prepend(head.out, Walk(nodes[1..], limit, head.count))
  }

  /** The characters `countLexicalCharacters` counts in a list of nodes. */
  function CountNodes(nodes: seq<Node>): nat
    decreases nodes, 1
  {
    if nodes == [] then 0 else CountNode(nodes[0]) + CountNodes(nodes[1..])
  }

  function CountNode(node: Node): nat
    decreases node, 0
  {
    match node
    case Paragraph(children, _) => CountNodes(children)
    case Text(text, _) => |text|
    case _ => 0
  }

  /** The nodes the truncation keeps when nothing is cut: text nodes and paragraphs with
      children, recursively; other nodes are dropped. */
  function Prune(nodes: seq<Node>): seq<Node>
    decreases nodes, 1
  {
    if nodes == [] then [] else PruneNode(nodes[0]) + Prune(nodes[1..])
  }

  function PruneNode(node: Node): seq<Node>
    decreases node, 0
  {
    match node
    case Paragraph(children, attrs) => [Paragraph(Prune(children), attrs)]
    case Text(_, _) => [node]
    case _ => []
  }

  lemma CountConcat(a: seq<Node>, b: seq<Node>)
    ensures CountNodes(a + b) == CountNodes(a) + CountNodes(b)
  {
    if a != [] {
      assert (a + b)[0] == a[0];
      assert (a + b)[1..] == a[1..] + b;
      CountConcat(a[1..], b);
    } else {
      assert a + b == b;
    }
  }

  /** Pruning drops only nodes that carry no counted characters. */
  lemma {:induction false} PruneKeepsCount(nodes: seq<Node>)
    ensures CountNodes(Prune(nodes)) == CountNodes(nodes)
    decreases nodes, 1
  {
    if nodes != [] {
      PruneNodeKeepsCount(nodes[0]);
      PruneKeepsCount(nodes[1..]);
      CountConcat(PruneNode(nodes[0]), Prune(nodes[1..]));
    }
  }

  lemma {:induction false} PruneNodeKeepsCount(node: Node)
    ensures CountNodes(PruneNode(node)) == CountNode(node)
    decreases node, 0
  {
    match node
    case Paragraph(children, attrs) =>
      PruneKeepsCount(children);
      assert [Paragraph(Prune(children), attrs)][1..] == [];
    case Text(_, _) =>
      assert [node][1..] == [];
    case _ =>
  }

  /** The walk stops early exactly when the text does not fit the remaining budget; when
      it fits, the result is the pruned input and the count advances by its characters. */
  lemma {:induction false} WalkFits(nodes: seq<Node>, limit: int, count: int)
    requires count <= limit
    ensures !Walk(nodes, limit, count).done <==> count + CountNodes(nodes) <= limit
    ensures count + CountNodes(nodes) <= limit ==>
      Walk(nodes, limit, count) == Walked(Prune(nodes), count + CountNodes(nodes), false)
    decreases nodes, 1
  {
    if nodes != [] {
      WalkHeadFits(nodes[0], limit, count);
      var head := WalkHead(nodes[0], limit, count);
      if !head.done {
        WalkFits(nodes[1..], limit, head.count);
      }
    }
  }

  lemma {:induction false} WalkHeadFits(node: Node, limit: int, count: int)
    requires count <= limit
    ensures !WalkHead(node, limit, count).done <==> count + CountNode(node) <= limit
    ensures count + CountNode(node) <= limit ==>
      WalkHead(node, limit, count) == Walked(PruneNode(node), count + CountNode(node), false)
    decreases node, 0
  {
    match node
    case Paragraph(children, attrs) =>
      WalkFits(children, limit, count);
    case Text(_, _) =>
    case _ =>
  }

  /** The kept text never exceeds the budget by more than the one ellipsis character. */
  lemma {:induction false} WalkOutputBound(nodes: seq<Node>, limit: int, count: int)
    requires count <= limit
    ensures count <= Walk(nodes, limit, count).count <= limit
    ensures CountNodes(Walk(nodes, limit, count).out) + count
      <= Walk(nodes, limit, count).count
         + (if Walk(nodes, limit, count).done then limit - Walk(nodes, limit, count).count + 1 else 0)
    decreases nodes, 1
  {
    if nodes != [] {
      HeadOutputBound(nodes[0], limit, count);
      var head := WalkHead(nodes[0], limit, count);
      if !head.done {
        WalkOutputBound(nodes[1..], limit, head.count);
        CountConcat(head.out, Walk(nodes[1..], limit, head.count).out);
      }
    }
  }

  lemma {:induction false} HeadOutputBound(node: Node, limit: int, count: int)
    requires count <= limit
    ensures count <= WalkHead(node, limit, count).count <= limit
    ensures CountNodes(WalkHead(node, limit, count).out) + count
      <= WalkHead(node, limit, count).count + (if WalkHead(node, limit, count).done then limit - WalkHead(node, limit, count).count + 1 else 0)
    decreases node, 0
  {
    match node
    case Paragraph(children, attrs) =>
      WalkOutputBound(children, limit, count);
      var inner := Walk(children, limit, count);
      assert [Paragraph(inner.out, attrs)][1..] == [];
    case Text(text, attrs) =>
      if count + |text| <= limit {
        assert [node][1..] == [];
      } else if limit - count > 0 {
        var cut := Text(text[..limit - count] + Ellipsis, attrs);
        assert [cut][1..] == [];
      }
    case _ =>
  }

  /** Walking a concatenation walks the first part, then (unless it ran out) the second
      from where the first left the count. */
  lemma {:induction false} WalkConcat(a: seq<Node>, b: seq<Node>, limit: int, count: int)
    ensures var wa := Walk(a, limit, count);
      Walk(a + b, limit, count) == if wa.done then wa else Prepend(wa.out, Walk(b, limit, wa.count))
    decreases a
  {
    if a == [] {
      assert a + b == b;
      assert [] + Walk(b, limit, count).out == Walk(b, limit, count).out;
    } else {
      assert (a + b)[0] == a[0];
      assert (a + b)[1..] == a[1..] + b;
      var head := WalkHead(a[0], limit, count);
      if !head.done {
        WalkConcat(a[1..], b, limit, head.count);
        var w1 := Walk(a[1..], limit, head.count);
        if !w1.done {
          var w2 := Walk(b, limit, w1.count);
          assert head.out + (w1.out + w2.out) == (head.out + w1.out) + w2.out;
        }
      }
    }
  }

  /** Truncating the truncated nodes again keeps them as they are: the text that fitted
      still fits, and a cut text is cut at the same place with the same ellipsis. Only the
      flag differs when the first cut fell exactly on the limit and left no ellipsis. */
  lemma {:induction false} WalkIdempotent(nodes: seq<Node>, limit: int, count: int)
    requires count <= limit
    ensures var w := Walk(nodes, limit, count);
      var w2 := Walk(w.out, limit, count);
      w2.out == w.out && w2.count == w.count && (w2.done <==> w.done && w.count < limit)
    decreases nodes, 1
  {
    if nodes != [] {
      HeadIdempotent(nodes[0], limit, count);
      HeadOutputBound(nodes[0], limit, count);
      var head := WalkHead(nodes[0], limit, count);
      if !head.done {
        WalkIdempotent(nodes[1..], limit, head.count);
        var rest := Walk(nodes[1..], limit, head.count);
        WalkConcat(head.out, rest.out, limit, count);
      }
    }
  }

  lemma {:induction false} HeadIdempotent(node: Node, limit: int, count: int)
    requires count <= limit
    ensures var h := WalkHead(node, limit, count);
      var w2 := Walk(h.out, limit, count);
      w2.out == h.out && w2.count == h.count && (w2.done <==> h.done && h.count < limit)
    decreases node, 0
  {
    match node
    case Paragraph(children, attrs) =>
      WalkIdempotent(children, limit, count);
      var inner := Walk(children, limit, count);
      var p := Paragraph(inner.out, attrs);
      assert [p][0] == p && [p][1..] == [];
    case Text(text, attrs) =>
      if count + |text| <= limit {
        assert [node][0] == node && [node][1..] == [];
      } else if limit - count > 0 {
        var r := limit - count;
        var cut := Text(text[..r] + Ellipsis, attrs);
        assert [cut][0] == cut;
        assert (text[..r] + Ellipsis)[..r] == text[..r];
      }
    case _ =>
  }

  /** `truncateLexicalJson`: the state with its root's children truncated, or `None`
      where the source throws because the root or its children are missing. */
  function TruncateLexicalJson(editor: EditorState, limit: int): (r: Option<EditorState>)
    ensures r.Some? <==> editor.root.Some? && editor.root.value.children.Some?
    ensures r.Some? ==> (r.value.attrs == editor.attrs && r.value.root.Some?
      && r.value.root.value.attrs == editor.root.value.attrs
      && r.value.root.value.children == Some(Walk(editor.root.value.children.value, limit, 0).out))
  {
    match editor.root
    case None => None
    case Some(root) =>
      match root.children
      case None => None
      case Some(children) =>
        Some(EditorState(Some(Root(Some(Walk(children, limit, 0).out), root.attrs)), editor.attrs))
  }

  /** `countLexicalCharacters`: 0 without a root or root children. */
  function CountLexicalCharacters(editor: EditorState): (n: nat)
    ensures editor.root.None? || editor.root.value.children.None? ==> n == 0
    ensures editor.root.Some? && editor.root.value.children.Some? ==> n == CountNodes(editor.root.value.children.value)
  {
    if editor.root.Some? && editor.root.value.children.Some? then CountNodes(editor.root.value.children.value) else 0
  }

  /** `truncateLexicalJson(editorJson)` with the default budget of 200 characters: a preview
      counts at most 201 characters, and a post within 200 keeps its count. */
  function TruncateDefault(editor: EditorState): (r: Option<EditorState>)
    ensures r.Some? <==> editor.root.Some? && editor.root.value.children.Some?
    ensures r.Some? ==> CountLexicalCharacters(r.value) <= DefaultLimit + 1
    ensures r.Some? && CountLexicalCharacters(editor) <= DefaultLimit ==>
      CountLexicalCharacters(r.value) == CountLexicalCharacters(editor)
  {
    var r := TruncateLexicalJson(editor, DefaultLimit);
    if r.Some? then TruncateWithinBudget(editor, DefaultLimit); r else r
  }

  /** A post within the budget is left as it is (up to dropped non-text nodes), and the
      count of a truncated post is at most the budget plus the ellipsis. */
  lemma TruncateWithinBudget(editor: EditorState, limit: nat)
    requires TruncateLexicalJson(editor, limit).Some?
    ensures var r := TruncateLexicalJson(editor, limit).value;
      CountLexicalCharacters(r) <= limit + 1
      && (CountLexicalCharacters(editor) <= limit ==>
            r.root.value.children == Some(Prune(editor.root.value.children.value))
            && CountLexicalCharacters(r) == CountLexicalCharacters(editor))
  {
    var children := editor.root.value.children.value;
    WalkOutputBound(children, limit, 0);
    WalkFits(children, limit, 0);
    PruneKeepsCount(children);
  }

  /** Truncating a truncated post again with the same budget changes nothing. */
  lemma TruncateIdempotent(editor: EditorState, limit: nat)
    requires TruncateLexicalJson(editor, limit).Some?
    ensures TruncateLexicalJson(TruncateLexicalJson(editor, limit).value, limit) == TruncateLexicalJson(editor, limit)
  {
    WalkIdempotent(editor.root.value.children.value, limit, 0);
  }

  /** The walk of `truncateLexicalJson`, with the closure's `count` and `done` as fields. */
  class Truncator {
    const limit: int
    var count: int
    var done: bool

    constructor (limit: int)
      ensures this.limit == limit && count == 0 && !done
    {
      this.limit := limit;
      count := 0;
      done := false;
    }

    /** `walkNodes`. */
    method WalkNodes(nodes: seq<Node>) returns (out: seq<Node>)
      requires !done
      modifies this
      ensures Walked(out, count, done) == Walk(nodes, limit, old(count))
      decreases nodes
    {
      out := [];
      var i := 0;
      ghost var start := count;
      while i < |nodes|
        invariant 0 <= i <= |nodes|
        invariant !done ==> Walk(nodes, limit, start) == Prepend(out, Walk(nodes[i..], limit, count))
        invariant done ==> Walk(nodes, limit, start) == Walked(out, count, true)
        decreases |nodes| - i
      {
        if done {
          break;
        }
        WalkStep(nodes, i, limit, count);
        var node := nodes[i];
        match node {
          case Paragraph(children, attrs) =>
            var inner := WalkNodes(children);
            out := out + [Paragraph(inner, attrs)];
          case Text(text, attrs) =>
            if count + |text| <= limit {
              count := count + |text|;
              out := out + [node];
            } else {
              var remaining := limit - count;
              if remaining > 0 {
                out := out + [Text(text[..remaining] + Ellipsis, attrs)];
              }
              done := true;
            }
          case _ =>
        }
        i := i + 1;
      }
      if !done {
        assert nodes[i..] == [];
      }
    }
  }

  /** One step of the loop of `walkNodes` in terms of `Walk`. */
  lemma WalkStep(nodes: seq<Node>, i: nat, limit: int, count: int)
    requires i < |nodes|
    ensures var head := WalkHead(nodes[i], limit, count);
      Walk(nodes[i..], limit, count)
        == if head.done then head else Prepend(head.out, Walk(nodes[i + 1..], limit, head.count))
  {
    assert nodes[i..][0] == nodes[i];
    assert nodes[i..][1..] == nodes[i + 1..];
  }

  /** `truncateLexicalJson` run with the walk above. */
  method Truncate(editor: EditorState, limit: int) returns (r: Option<EditorState>)
    ensures r == TruncateLexicalJson(editor, limit)
  {
    if editor.root.None? || editor.root.value.children.None? {
      return None;
    }
    var t := new Truncator(limit);
    var children := t.WalkNodes(editor.root.value.children.value);
    r := Some(EditorState(Some(Root(Some(children), editor.root.value.attrs)), editor.attrs));
  }

  /** The walk of `countLexicalCharacters`, with the closure's `count` as a field. */
  class Counter {
    var count: nat

    constructor ()
      ensures count == 0
    {
      count := 0;
    }

    method WalkNodes(nodes: seq<Node>)
      modifies this
      ensures count == old(count) + CountNodes(nodes)
      decreases nodes
    {
      var i := 0;
      while i < |nodes|
        invariant 0 <= i <= |nodes|
        invariant old(count) + CountNodes(nodes) == count + CountNodes(nodes[i..])
        decreases |nodes| - i
      {
        assert nodes[i..][0] == nodes[i] && nodes[i..][1..] == nodes[i + 1..];
        match nodes[i] {
          case Paragraph(children, _) =>
            WalkNodes(children);
          case Text(text, _) =>
            count := count + |text|;
          case _ =>
        }
        i := i + 1;
      }
      assert nodes[i..] == [];
    }
  }

  /** `countLexicalCharacters` run with the walk above. */
  method Count(editor: EditorState) returns (n: nat)
    ensures n == CountLexicalCharacters(editor)
  {
    var c := new Counter();
    if editor.root.Some? && editor.root.value.children.Some? {
      c.WalkNodes(editor.root.value.children.value);
    }
    n := c.count;
  }
}
