/** Sorted-pair Merkle folding (lib/src/merkle.rs) over an arbitrary hash function. */
module Merkle {
  import opened ByteStrings

  type HashFunction = Bytes -> Bytes32

  // Two inputs that witness that the hash function is not injective.
  datatype Pair = Pair(left: Bytes, right: Bytes)

  predicate Collides(h: HashFunction, p: Pair) {
    p.left != p.right && h(p.left) == h(p.right)
  }

  /** The 64 bytes hashed for an inner node: the larger half comes first. */
  function Joined(hash: Bytes32, sibling: Bytes32): (b: Bytes)
    ensures |b| == 64
  {
    if LexGreaterEq(sibling, hash) then sibling + hash else hash + sibling
  }

  function Fold(h: HashFunction, hash: Bytes32, path: seq<Bytes32>): Bytes32 {
    if path == [] then hash
    else h(Joined(Fold(h, hash, path[..|path| - 1]), path[|path| - 1]))
  }

  /** The iterative fold computes the recursive one. */
  method GetMerkleRoot(h: HashFunction, start: Bytes32, path: seq<Bytes32>) returns (root: Bytes32)
    ensures root == Fold(h, start, path)
  {
    root := start;
    for i := 0 to |path|
      invariant root == Fold(h, start, path[..i])
    {
      var leaf := path[i];
      assert path[..i + 1][..i] == path[..i];
      if LexGreaterEq(leaf, root) {
        root := h(leaf + root);
      } else {
        root := h(root + leaf);
      }
    }
    assert path[..|path|] == path;
  }

  lemma JoinedCommutes(a: Bytes32, b: Bytes32)
    ensures Joined(a, b) == Joined(b, a)
  {
    LexTotal(a, b);
    if LexGreaterEq(a, b) && LexGreaterEq(b, a) {
      LexAntisymmetric(a, b);
    }
  }

  /** Of the two hashes, the larger number comes first. */
  lemma JoinedIsSorted(a: Bytes32, b: Bytes32)
    ensures var first, second := Joined(a, b)[..32], Joined(a, b)[32..];
            FromBigEndian(first) >= FromBigEndian(second)
            && ((first == a && second == b) || (first == b && second == a))
  {
    LexTotal(a, b);
    LexIsNumeric(a, b);
    LexIsNumeric(b, a);
  }

  /** The siblings are joined from the leaf upwards, the first of the path first. */
  lemma {:induction false} FoldStartsAtLeaf(h: HashFunction, hash: Bytes32, sibling: Bytes32, above: seq<Bytes32>)
    ensures Fold(h, hash, [sibling] + above) == Fold(h, h(Joined(hash, sibling)), above)
    decreases |above|
  {
    var path := [sibling] + above;
    if above == [] {
      assert path[..0] == [];
      assert Fold(h, hash, path[..0]) == hash;
    } else {
      assert path[..|path| - 1] == [sibling] + above[..|above| - 1];
      FoldStartsAtLeaf(h, hash, sibling, above[..|above| - 1]);
    }
  }

  // Two joined pairs with equal bytes hold the same two hashes.
  lemma JoinedSplits(a: Bytes32, b: Bytes32, c: Bytes32, d: Bytes32)
    requires Joined(a, b) == Joined(c, d)
    ensures (a == c && b == d) || (a == d && b == c)
  {
    var x, y := Joined(a, b), Joined(c, d);
    assert x[..32] == y[..32] && x[32..] == y[32..];
    assert {a, b} == {x[..32], x[32..]} && {c, d} == {y[..32], y[32..]};
    assert (x[..32] == a && x[32..] == b) || (x[..32] == b && x[32..] == a);
    assert (y[..32] == c && y[32..] == d) || (y[..32] == d && y[32..] == c);
  }

  datatype Tree = Leaf(content: Bytes) | Node(left: Tree, right: Tree)

  function Root(h: HashFunction, t: Tree): Bytes32 {
    match t
    case Leaf(content) => h(content)
    case Node(left, right) => h(Joined(Root(h, left), Root(h, right)))
  }

  function Leaves(t: Tree): set<Bytes> {
    match t
    case Leaf(content) => {content}
    case Node(left, right) => Leaves(left) + Leaves(right)
  }

  // No leaf is as long as the preimage of an inner node.
  predicate LeavesNotNodeSized(t: Tree) {
    forall content <- Leaves(t) :: |content| != 64
  }

  // A position is the list of turns from the root down: true is left.
  predicate HasLeafAt(t: Tree, position: seq<bool>, content: Bytes) {
    match t
    case Leaf(c) => position == [] && c == content
    case Node(left, right) =>
      position != [] && HasLeafAt(if position[0] then left else right, position[1..], content)
  }

  /** The siblings met on the way from a leaf up to the root. */
  function SiblingPath(h: HashFunction, t: Tree, position: seq<bool>): seq<Bytes32> {
    if t.Leaf? || position == [] then []
    else if position[0] then SiblingPath(h, t.left, position[1..]) + [Root(h, t.right)]
    else SiblingPath(h, t.right, position[1..]) + [Root(h, t.left)]
  }

  /** Completeness: the sibling path of any leaf of any tree folds to the tree's root. */
  lemma {:induction false} SiblingPathFolds(h: HashFunction, t: Tree, position: seq<bool>, content: Bytes)
    requires HasLeafAt(t, position, content)
    ensures Fold(h, h(content), SiblingPath(h, t, position)) == Root(h, t)
    decreases t
  {
    if t.Node? {
      var path := SiblingPath(h, t, position);
      if position[0] {
        SiblingPathFolds(h, t.left, position[1..], content);
        assert path[..|path| - 1] == SiblingPath(h, t.left, position[1..]);
      } else {
        SiblingPathFolds(h, t.right, position[1..], content);
        assert path[..|path| - 1] == SiblingPath(h, t.right, position[1..]);
        JoinedCommutes(Root(h, t.left), Root(h, t.right));
      }
    }
  }

  // The last bytes hashed when folding `content` along `path`.
  function FoldPreimage(h: HashFunction, content: Bytes, path: seq<Bytes32>): (b: Bytes)
    ensures h(b) == Fold(h, h(content), path)
    ensures |b| == if path == [] then |content| else 64
  {
    if path == [] then content
    else Joined(Fold(h, h(content), path[..|path| - 1]), path[|path| - 1])
  }

  // The last bytes hashed when computing the root of `t`.
  function RootPreimage(h: HashFunction, t: Tree): (b: Bytes)
    ensures h(b) == Root(h, t)
    ensures t.Node? ==> |b| == 64
  {
    match t
    case Leaf(content) => content
    case Node(left, right) => Joined(Root(h, left), Root(h, right))
  }

  /** Walks a fold and a tree with the same root downwards until their preimages differ. */
  function FindCollision(h: HashFunction, t: Tree, content: Bytes, path: seq<Bytes32>): Pair
    decreases path
  {
    var fold, node := FoldPreimage(h, content, path), RootPreimage(h, t);
    if fold != node || t.Leaf? || path == [] then Pair(fold, node)
    else
      var below := Fold(h, h(content), path[..|path| - 1]);
      FindCollision(h, if below == Root(h, t.left) then t.left else t.right, content, path[..|path| - 1])
  }

  /** Soundness: a content that folds to the root along any path is a leaf, or a collision is exhibited. */
  lemma {:induction false} FoldedContentIsLeaf(h: HashFunction, t: Tree, content: Bytes, path: seq<Bytes32>)
    requires Fold(h, h(content), path) == Root(h, t)
    requires |content| != 64 && LeavesNotNodeSized(t)
    ensures content in Leaves(t) || Collides(h, FindCollision(h, t, content, path))
    decreases path
  {
    var fold, node := FoldPreimage(h, content, path), RootPreimage(h, t);
    if fold == node && t.Node? && path != [] {
      var shorter := path[..|path| - 1];
      var below := Fold(h, h(content), shorter);
      JoinedSplits(below, path[|path| - 1], Root(h, t.left), Root(h, t.right));
      FoldedContentIsLeaf(h, if below == Root(h, t.left) then t.left else t.right, content, shorter);
    }
  }
}
