/**
 * The detail view's comment thread: `makeComment` flattens a forest of
 * comments into one block per comment, in pre-order, each block indented
 * by 40 pixels per reply level. Blocks are kept as records rather than
 * HTML strings.
 */
module CommentTree {

  /** A comment as the item endpoint returns it; `replies` is its `comments` field. */
  datatype Comment = Comment(
    id: int,
    user: string,
    timeAgo: string,
    content: string,
    level: int,
    replies: seq<Comment>)

  /** The rendered presentation block of one comment. */
  datatype Block = Block(padding: int, user: string, timeAgo: string, content: string)

  /** Pixels of left padding per reply level. */
  const IndentPerLevel := 40

  /** The block of one comment: its author, age and text, indented by its level. */
  function BlockOf(c: Comment): (b: Block)
    ensures b.padding % IndentPerLevel == 0 && b.padding / IndentPerLevel == c.level
    ensures b.user == c.user && b.timeAgo == c.timeAgo && b.content == c.content
  {
    Block(c.level * IndentPerLevel, c.user, c.timeAgo, c.content)
  }

  /** Every comment of the forest, each parent before its replies, siblings in order. */
  function PreOrder(cs: seq<Comment>): seq<Comment>
  {
    if cs == [] then [] else [cs[0]] + PreOrder(cs[0].replies) + PreOrder(cs[1..])
  }

  /** Number of comments in a single thread, the root included. */
  function ThreadSize(c: Comment): nat
  {
    1 + ForestSize(c.replies)
  }

  /** Number of comments in a forest. */
  function ForestSize(cs: seq<Comment>): nat
  {
    if cs == [] then 0 else ThreadSize(cs[0]) + ForestSize(cs[1..])
  }

  function Blocks(xs: seq<Comment>): (bs: seq<Block>)
    ensures |bs| == |xs|
    ensures forall i :: 0 <= i < |xs| ==> bs[i] == BlockOf(xs[i])
  {
    if xs == [] then [] else [BlockOf(xs[0])] + Blocks(xs[1..])
  }

  /** What `makeComment` produces for a forest: the blocks of its pre-order listing. */
  function Rendered(cs: seq<Comment>): seq<Block>
  {
    Blocks(PreOrder(cs))
  }

  /** `makeComment`: loops over the siblings and recurses into the replies of each. */
  method MakeComment(cs: seq<Comment>) returns (out: seq<Block>)
    decreases cs
    ensures out == Rendered(cs)
  {
    out := [];
    for i := 0 to |cs|
      invariant out == Rendered(cs[..i])
    {
      var comment := cs[i];
      ghost var before := out;
      out := out + [BlockOf(comment)];
      if |comment.replies| > 0 {
        var sub := MakeComment(comment.replies);
        out := out + sub;
      } else {
        RenderedAppend([], []);
      }
      assert out == before + Rendered([comment]) by {
        RenderedOne(comment);
      }
      assert cs[..i + 1] == cs[..i] + [comment];
      RenderedAppend(cs[..i], [comment]);
    }
    assert cs[..|cs|] == cs;
  }

  lemma {:induction false} BlocksAppend(a: seq<Comment>, b: seq<Comment>)
    ensures Blocks(a + b) == Blocks(a) + Blocks(b)
  {
  }

  /** Flattening distributes over concatenation of sibling lists. */
  lemma {:induction false} PreOrderAppend(a: seq<Comment>, b: seq<Comment>)
    decreases |a|
    ensures PreOrder(a + b) == PreOrder(a) + PreOrder(b)
  {
    if a == [] {
      assert a + b == b;
    } else {
      assert (a + b)[0] == a[0];
      assert (a + b)[1..] == a[1..] + b;
      PreOrderAppend(a[1..], b);
    }
  }

  /** Rendering `a + b` is rendering `a` followed by rendering `b`; the empty forest renders as nothing. */
  lemma RenderedAppend(a: seq<Comment>, b: seq<Comment>)
    ensures Rendered(a + b) == Rendered(a) + Rendered(b)
    ensures Rendered([]) == []
  {
    PreOrderAppend(a, b);
    BlocksAppend(PreOrder(a), PreOrder(b));
  }

  /** A comment's block comes first, immediately followed by the blocks of its whole reply thread. */
  lemma RenderedOne(c: Comment)
    ensures Rendered([c]) == [BlockOf(c)] + Rendered(c.replies)
  {
    assert [c][1..] == [];
    assert PreOrder([c]) == [c] + PreOrder(c.replies);
    BlocksAppend([c], PreOrder(c.replies));
  }

  /** Exactly one block per comment of the forest. */
  lemma {:induction false} RenderedSize(cs: seq<Comment>)
    decreases cs
    ensures |Rendered(cs)| == ForestSize(cs)
  {
    if cs != [] {
      RenderedSize(cs[0].replies);
      RenderedSize(cs[1..]);
    }
  }

  /** Every root has level `d`, and every reply is one level deeper than its parent. */
  predicate WellLevelled(cs: seq<Comment>, d: int)
    decreases cs
  {
    forall i :: 0 <= i < |cs| ==> cs[i].level == d && WellLevelled(cs[i].replies, d + 1)
  }

  /** A listing whose levels start at `d`, never drop below `d`, and rise by at most one per step. */
  ghost predicate Descends(xs: seq<Comment>, d: int)
  {
    && (|xs| > 0 ==> xs[0].level == d)
    && (forall i :: 0 <= i < |xs| ==> xs[i].level >= d)
    && (forall i, j :: 0 <= i && j == i + 1 && j < |xs| ==> xs[j].level <= xs[i].level + 1)
  }

  lemma DescendsAppend(a: seq<Comment>, b: seq<Comment>, d: int, e: int)
    requires Descends(a, d) && Descends(b, e) && d <= e
    requires |a| > 0 && |b| > 0 ==> e <= a[|a| - 1].level + 1
    requires |a| > 0
    ensures Descends(a + b, d)
  {
  }

  /**
   * In a well-levelled thread the pre-order listing starts at the root level
   * and descends at most one level per step: each block is indented at most
   * 40 pixels more than the block before it.
   */
  lemma {:induction false} PreOrderDescends(cs: seq<Comment>, d: int)
    requires WellLevelled(cs, d)
    decreases cs
    ensures Descends(PreOrder(cs), d)
  {
    if cs != [] {
      var c := cs[0];
      assert c.level == d;
      PreOrderDescends(c.replies, d + 1);
      assert WellLevelled(cs[1..], d) by {
        forall i | 0 <= i < |cs[1..]| ensures cs[1..][i].level == d && WellLevelled(cs[1..][i].replies, d + 1) {
          assert cs[1..][i] == cs[i + 1];
        }
      }
      PreOrderDescends(cs[1..], d);
      var head := [c] + PreOrder(c.replies);
      DescendsAppend([c], PreOrder(c.replies), d, d + 1);
      DescendsAppend(head, PreOrder(cs[1..]), d, d);
    }
  }

  /** Rendered indentation of a well-levelled forest: starts at `IndentPerLevel * d`, never less, rises by at most one indent. */
  lemma RenderedIndentation(cs: seq<Comment>, d: int)
    requires WellLevelled(cs, d)
    ensures var r := Rendered(cs);
      && (|r| > 0 ==> r[0].padding == IndentPerLevel * d)
      && (forall i :: 0 <= i < |r| ==> r[i].padding >= IndentPerLevel * d)
      && (forall i :: 0 < i < |r| ==> r[i].padding <= r[i - 1].padding + IndentPerLevel)
  {
    PreOrderDescends(cs, d);
  }

  /** A root with two replies, each with one reply of its own, renders root, child, grandchild, child, grandchild. */
  lemma PreOrderExample(g1: Comment, g2: Comment, c1: Comment, c2: Comment, root: Comment)
    requires g1.replies == [] && g2.replies == []
    requires c1.replies == [g1] && c2.replies == [g2]
    requires root.replies == [c1, c2]
    ensures PreOrder([root]) == [root, c1, g1, c2, g2]
  {
    assert PreOrder([g1]) == [g1] by { assert [g1][1..] == []; }
    assert PreOrder([g2]) == [g2] by { assert [g2][1..] == []; }
    assert PreOrder([c2]) == [c2, g2] by { assert [c2][1..] == []; }
    assert PreOrder([c1, c2]) == [c1, g1, c2, g2] by { assert [c1, c2][1..] == [c2]; }
    assert [root][1..] == [];
  }
}
