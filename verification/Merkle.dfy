/** The anonymous-membership tree: roots from paths, and the sparse fixed-depth tree that makes them
    (nexus-protocol/src/lib.rs:98-167, tet-core/src/tmail/anon.rs:130-215). A digest is the number its bytes spell. */
module Merkle {
  import opened Basics

  type Digest = nat

  /** The parent hash, the digest of an empty leaf, and the tree's depth (`TET_ANON_MERKLE_DEPTH`, 20). */
  datatype Hashing = Hashing(parent: (Digest, Digest) -> Digest, emptyLeaf: Digest, depth: nat)

  ghost predicate Injective(h: Hashing) {
    forall a, b, c, d :: h.parent(a, b) == h.parent(c, d) ==> a == c && b == d
  }

  // `index >> n`.
  function Shift(index: nat, n: nat): nat {
    if n == 0 then index else Shift(index / 2, n - 1)
  }

  lemma {:induction false} ShiftOnce(index: nat, n: nat)
    ensures Shift(index, n + 1) == Shift(index, n) / 2
  {
    if n > 0 {
      ShiftOnce(index / 2, n - 1);
    }
  }

  function Pow2(n: nat): (r: nat)
    ensures r > 0
  {
    if n == 0 then 1 else 2 * Pow2(n - 1)
  }

  lemma TimesMonotone(d: nat, a: nat, b: nat)
    requires a <= b
    ensures d * a <= d * b
  {
  }

  lemma ProductsOrdered(a: nat, b: nat, d: nat)
    ensures a + 1 <= b ==> a * d + d <= b * d
  {
    if a + 1 <= b {
      TimesMonotone(d, a + 1, b);
      assert (a + 1) * d == a * d + d;
    }
  }

  lemma QuotientIs(x: nat, d: nat, q: nat, r: nat)
    requires x == q * d + r && r < d
    ensures x / d == q && x % d == r
  {
    var k := x / d;
    assert x == k * d + x % d;
    ProductsOrdered(k, q, d);
    ProductsOrdered(q, k, d);
  }

  // The bits a shift drops.
  function Low(index: nat, n: nat): nat {
    if n == 0 then 0 else 2 * Low(index / 2, n - 1) + index % 2
  }

  lemma DoubleTimes(q: nat, p: nat)
    ensures q * (2 * p) == 2 * (q * p)
  {
  }

  lemma OneMoreBit(index: nat, q: nat, p: nat, r: nat)
    requires index / 2 == q * p + r && r < p
    ensures index == q * (2 * p) + (2 * r + index % 2) && 2 * r + index % 2 < 2 * p
  {
    DoubleTimes(q, p);
  }

  lemma {:induction false} ShiftSplits(index: nat, n: nat)
    ensures index == Shift(index, n) * Pow2(n) + Low(index, n) && Low(index, n) < Pow2(n)
  {
    if n > 0 {
      ShiftSplits(index / 2, n - 1);
      OneMoreBit(index, Shift(index, n), Pow2(n - 1), Low(index / 2, n - 1));
    }
  }

  // Shifting is division,
  lemma ShiftDivides(index: nat, n: nat)
    ensures Shift(index, n) == index / Pow2(n)
  {
    ShiftSplits(index, n);
    QuotientIs(index, Pow2(n), Shift(index, n), Low(index, n));
  }

  // and what falls off is the remainder.
  lemma ShiftLeaves(index: nat, n: nat)
    ensures Low(index, n) == index % Pow2(n)
    ensures index == Shift(index, n) * Pow2(n) + index % Pow2(n)
  {
    ShiftSplits(index, n);
    QuotientIs(index, Pow2(n), Shift(index, n), Low(index, n));
  }

  // ----- roots from paths

  function Step(h: Hashing, cur: Digest, index: nat, sibling: Digest): Digest {
    if index % 2 == 0 then h.parent(cur, sibling) else h.parent(sibling, cur)
  }

  function RootFromPath(h: Hashing, leaf: Digest, index: nat, siblings: seq<Digest>): Digest
    decreases |siblings|
  {
    if siblings == [] then leaf
    else RootFromPath(h, Step(h, leaf, index, siblings[0]), index / 2, siblings[1..])
  }

  // `index` is a u32, whose bits run out after 32 levels.
  method RootFromPathLoop(h: Hashing, leaf: Digest, index: nat, siblings: seq<Digest>) returns (cur: Digest)
    requires index < 0x1_0000_0000 && |siblings| <= 32
    ensures cur == RootFromPath(h, leaf, index, siblings)
  {
    cur := leaf;
    var i := 0;
    while i < |siblings|
      invariant 0 <= i <= |siblings|
      invariant RootFromPath(h, cur, Shift(index, i), siblings[i..]) == RootFromPath(h, leaf, index, siblings)
    {
      var bit := Shift(index, i) % 2;
      ShiftOnce(index, i);
      assert siblings[i..][1..] == siblings[i + 1..];
      cur := if bit == 0 then h.parent(cur, siblings[i]) else h.parent(siblings[i], cur);
      i := i + 1;
    }
  }

  /** Binding: under one index and length, a root fixes the leaf and the whole path. */
  lemma {:induction false} PathBinds(h: Hashing, index: nat, x: Digest, s: seq<Digest>, y: Digest, t: seq<Digest>)
    requires Injective(h) && |s| == |t|
    ensures RootFromPath(h, x, index, s) == RootFromPath(h, y, index, t) <==> x == y && s == t
    decreases |s|
  {
    if s != [] && RootFromPath(h, x, index, s) == RootFromPath(h, y, index, t) {
      PathBinds(h, index / 2, Step(h, x, index, s[0]), s[1..], Step(h, y, index, t[0]), t[1..]);
      assert s == [s[0]] + s[1..] && t == [t[0]] + t[1..];
    }
  }

  // A path reads one bit of the index per sibling, and none above.
  lemma {:induction false} HighBitsAreNotRead(h: Hashing, x: Digest, index: nat, k: nat, siblings: seq<Digest>)
    ensures RootFromPath(h, x, index + k * Pow2(|siblings|), siblings) == RootFromPath(h, x, index, siblings)
    decreases |siblings|
  {
    if siblings != [] {
      var n := |siblings| - 1;
      var m := k * Pow2(n);
      assert k * Pow2(n + 1) == 2 * m;
      assert (index + 2 * m) / 2 == index / 2 + m && (index + 2 * m) % 2 == index % 2;
      HighBitsAreNotRead(h, Step(h, x, index, siblings[0]), index / 2, k, siblings[1..]);
    }
  }

  lemma OnlyLowBitsAreRead(h: Hashing, x: Digest, index: nat, siblings: seq<Digest>)
    ensures RootFromPath(h, x, index, siblings) == RootFromPath(h, x, index % Pow2(|siblings|), siblings)
  {
    hide Pow2;
    ShiftLeaves(index, |siblings|);
    HighBitsAreNotRead(h, x, index % Pow2(|siblings|), Shift(index, |siblings|), siblings);
  }

  // ----- the full tree, as a reference

  function EmptyAt(h: Hashing, level: nat): Digest {
    if level == 0 then h.emptyLeaf else h.parent(EmptyAt(h, level - 1), EmptyAt(h, level - 1))
  }

  // The leaf at a position, empty past the last member.
  function Slot(h: Hashing, leaves: seq<Digest>, index: nat): Digest {
    if index < |leaves| then leaves[index] else h.emptyLeaf
  }

  // The node at a level and position of the complete tree whose missing leaves are empty.
  function Node(h: Hashing, leaves: seq<Digest>, level: nat, j: nat): Digest
    decreases level
  {
    if level == 0 then Slot(h, leaves, j)
    else h.parent(Node(h, leaves, level - 1, 2 * j), Node(h, leaves, level - 1, 2 * j + 1))
  }

  function Buddy(i: nat): nat {
    if i % 2 == 0 then i + 1 else i - 1
  }

  function PathOf(h: Hashing, leaves: seq<Digest>, level: nat, j: nat, top: nat): seq<Digest>
    requires level <= top
    decreases top - level
  {
    if level == top then [] else [Node(h, leaves, level, Buddy(j))] + PathOf(h, leaves, level + 1, j / 2, top)
  }

  lemma PathNext(h: Hashing, leaves: seq<Digest>, level: nat, j: nat, top: nat)
    requires level < top
    ensures PathOf(h, leaves, level, j, top)
         == [Node(h, leaves, level, Buddy(j))] + PathOf(h, leaves, level + 1, j / 2, top)
  {
    hide Node;
  }

  lemma PathEnd(h: Hashing, leaves: seq<Digest>, j: nat, top: nat)
    ensures PathOf(h, leaves, top, j, top) == []
  {
  }

  lemma ParentOf(h: Hashing, leaves: seq<Digest>, level: nat, j: nat)
    ensures Node(h, leaves, level + 1, j / 2) == Step(h, Node(h, leaves, level, j), j, Node(h, leaves, level, Buddy(j)))
  {
    assert j == 2 * (j / 2) + j % 2;
  }

  lemma {:induction false} PathClimbs(h: Hashing, leaves: seq<Digest>, level: nat, j: nat, top: nat)
    requires level <= top
    ensures RootFromPath(h, Node(h, leaves, level, j), j, PathOf(h, leaves, level, j, top))
         == Node(h, leaves, top, Shift(j, top - level))
    ensures |PathOf(h, leaves, level, j, top)| == top - level
    decreases top - level
  {
    if level < top {
      hide Node, Step;
      ParentOf(h, leaves, level, j);
      PathClimbs(h, leaves, level + 1, j / 2, top);
      var path := PathOf(h, leaves, level, j, top);
      assert path[1..] == PathOf(h, leaves, level + 1, j / 2, top);
    }
  }

  // ----- the sparse tree

  function LevelUp(h: Hashing, row: seq<Digest>, empty: Digest): (up: seq<Digest>)
    ensures |up| == (|row| + 1) / 2
  {
    seq((|row| + 1) / 2, j requires 0 <= j < (|row| + 1) / 2 =>
      h.parent(row[2 * j], if 2 * j + 1 < |row| then row[2 * j + 1] else empty))
  }

  function Level(h: Hashing, leaves: seq<Digest>, d: nat): seq<Digest> {
    if d == 0 then leaves else LevelUp(h, Level(h, leaves, d - 1), EmptyAt(h, d - 1))
  }

  // A row read past its end is empty subtrees.
  function At(row: seq<Digest>, empty: Digest, k: nat): Digest {
    if k < |row| then row[k] else empty
  }

  lemma UpAt(h: Hashing, row: seq<Digest>, empty: Digest, j: nat)
    ensures At(LevelUp(h, row, empty), h.parent(empty, empty), j)
        == h.parent(At(row, empty, 2 * j), At(row, empty, 2 * j + 1))
  {
  }

  lemma LevelNext(h: Hashing, leaves: seq<Digest>, d: nat)
    ensures Level(h, leaves, d + 1) == LevelUp(h, Level(h, leaves, d), EmptyAt(h, d))
  {
    hide LevelUp, EmptyAt;
  }

  lemma NodeNext(h: Hashing, leaves: seq<Digest>, d: nat, j: nat)
    ensures Node(h, leaves, d + 1, j) == h.parent(Node(h, leaves, d, 2 * j), Node(h, leaves, d, 2 * j + 1))
    ensures EmptyAt(h, d + 1) == h.parent(EmptyAt(h, d), EmptyAt(h, d))
  {
  }

  lemma LeafRow(h: Hashing, leaves: seq<Digest>, j: nat)
    ensures Node(h, leaves, 0, j) == At(Level(h, leaves, 0), EmptyAt(h, 0), j)
  {
  }

  /** What the sparse rows leave out is empty subtrees. */
  lemma {:induction false} RowsAreTheTree(h: Hashing, leaves: seq<Digest>, d: nat, j: nat)
    ensures Node(h, leaves, d, j) == At(Level(h, leaves, d), EmptyAt(h, d), j)
  {
    hide LevelUp, At, Node, Level, EmptyAt;
    if d == 0 {
      LeafRow(h, leaves, j);
    } else {
      RowsAreTheTree(h, leaves, d - 1, 2 * j);
      RowsAreTheTree(h, leaves, d - 1, 2 * j + 1);
      NodeNext(h, leaves, d - 1, j);
      LevelNext(h, leaves, d - 1);
      UpAt(h, Level(h, leaves, d - 1), EmptyAt(h, d - 1), j);
    }
  }

  /** What `AnonMerkleTree` holds: every sparse row and every empty subtree's digest. */
  datatype Tree = Tree(levels: seq<seq<Digest>>, empties: seq<Digest>, leafCount: nat)

  ghost predicate Built(h: Hashing, leaves: seq<Digest>, t: Tree) {
    && |t.levels| == |t.empties| == h.depth + 1
    && (forall d :: 0 <= d <= h.depth ==> t.levels[d] == Level(h, leaves, d))
    && (forall d :: 0 <= d <= h.depth ==> t.empties[d] == EmptyAt(h, d))
    && t.leafCount == |leaves|
  }

  method EmptySubtreeHashes(h: Hashing) returns (out: seq<Digest>)
    ensures |out| == h.depth + 1
    ensures forall d :: 0 <= d < |out| ==> out[d] == EmptyAt(h, d)
  {
    out := [h.emptyLeaf];
    for d := 1 to h.depth + 1
      invariant |out| == d
      invariant forall k :: 0 <= k < d ==> out[k] == EmptyAt(h, k)
    {
      out := out + [h.parent(out[d - 1], out[d - 1])];
    }
  }

  method NextRow(h: Hashing, row: seq<Digest>, empty: Digest) returns (next: seq<Digest>)
    ensures next == LevelUp(h, row, empty)
  {
    next := [];
    var i := 0;
    while i < |row|
      invariant i % 2 == 0 && i / 2 == |next| && i <= |row| + 1
      invariant |next| <= |LevelUp(h, row, empty)| && next == LevelUp(h, row, empty)[..|next|]
      decreases |row| + 2 - i
    {
      var right := if i + 1 < |row| then row[i + 1] else empty;
      assert LevelUp(h, row, empty)[i / 2] == h.parent(row[i], right);
      next := next + [h.parent(row[i], right)];
      i := i + 2;
    }
  }

  method Build(h: Hashing, leaves: seq<Digest>) returns (t: Tree)
    ensures Built(h, leaves, t)
  {
    hide LevelUp, EmptyAt;
    assert leaves == Level(h, leaves, 0);
    hide Level;
    var empties := EmptySubtreeHashes(h);
    var levels := [leaves];
    for d := 0 to h.depth
      invariant |levels| == d + 1
      invariant forall k :: 0 <= k <= d ==> levels[k] == Level(h, leaves, k)
    {
      var next := NextRow(h, levels[d], empties[d]);
      LevelNext(h, leaves, d);
      levels := levels + [next];
    }
    t := Tree(levels, empties, |leaves|);
  }

  function Root(t: Tree): Digest
    requires 0 < |t.levels| == |t.empties|
  {
    var top := |t.levels| - 1;
    if |t.levels[top]| > 0 then t.levels[top][0] else t.empties[top]
  }

  method Path(h: Hashing, leaves: seq<Digest>, t: Tree, index: nat) returns (siblings: Option<seq<Digest>>)
    requires Built(h, leaves, t)
    ensures siblings == if index < |leaves| then Some(PathOf(h, leaves, 0, index, h.depth)) else None
  {
    hide Node, Level, EmptyAt, PathOf;
    if index >= t.leafCount {
      return None;
    }
    var path := [];
    assert path + PathOf(h, leaves, 0, index, h.depth) == PathOf(h, leaves, 0, index, h.depth);
    var i := index;
    for d := 0 to h.depth
      invariant path + PathOf(h, leaves, d, i, h.depth) == PathOf(h, leaves, 0, index, h.depth)
    {
      var buddy := Buddy(i);
      RowsAreTheTree(h, leaves, d, buddy);
      PathNext(h, leaves, d, i, h.depth);
      var sibling := At(t.levels[d], t.empties[d], buddy);
      var rest := PathOf(h, leaves, d + 1, i / 2, h.depth);
      assert path + ([sibling] + rest) == path + [sibling] + rest;
      path := path + [sibling];
      i := i / 2;
    }
    PathEnd(h, leaves, i, h.depth);
    assert path + [] == path;
    siblings := Some(path);
  }

  /** The sparse tree's root is the complete tree's. */
  lemma SparseRootIsTheRoot(h: Hashing, leaves: seq<Digest>, t: Tree)
    requires Built(h, leaves, t)
    ensures Root(t) == Node(h, leaves, h.depth, 0)
  {
    RowsAreTheTree(h, leaves, h.depth, 0);
  }

  lemma LowIndexIsUnderTheRoot(index: nat, depth: nat)
    requires index < Pow2(depth)
    ensures Shift(index, depth) == 0
  {
    hide Pow2;
    ShiftDivides(index, depth);
    QuotientIs(index, Pow2(depth), 0, index);
  }

  /** The path of each of the first 2^depth members recomputes the root, however few there are. */
  lemma PathsReachTheRoot(h: Hashing, leaves: seq<Digest>, t: Tree, index: nat)
    requires Built(h, leaves, t) && index < |leaves| && index < Pow2(h.depth)
    ensures RootFromPath(h, leaves[index], index, PathOf(h, leaves, 0, index, h.depth)) == Root(t)
  {
    hide Pow2;
    PathClimbs(h, leaves, 0, index, h.depth);
    LowIndexIsUnderTheRoot(index, h.depth);
    SparseRootIsTheRoot(h, leaves, t);
  }

  /** Whatever the index, only its lowest bits count: a full-depth path reaches the root exactly when it is the
      path of the slot those bits name, from that slot's leaf. */
  lemma OnlyTheMemberHasAPath(h: Hashing, leaves: seq<Digest>, t: Tree, index: nat, x: Digest, siblings: seq<Digest>)
    requires Injective(h) && Built(h, leaves, t) && |siblings| == h.depth
    ensures var slot := index % Pow2(h.depth);
            RootFromPath(h, x, index, siblings) == Root(t)
            <==> x == Slot(h, leaves, slot) && siblings == PathOf(h, leaves, 0, slot, h.depth)
  {
    hide Pow2;
    var slot := index % Pow2(h.depth);
    OnlyLowBitsAreRead(h, x, index, siblings);
    PathClimbs(h, leaves, 0, slot, h.depth);
    LowIndexIsUnderTheRoot(slot, h.depth);
    SparseRootIsTheRoot(h, leaves, t);
    PathBinds(h, slot, x, siblings, Slot(h, leaves, slot), PathOf(h, leaves, 0, slot, h.depth));
  }

  // ----- what a node says about the leaves under it

  predicate SameAt(h: Hashing, a: seq<Digest>, x: nat, b: seq<Digest>, y: nat, k: nat) {
    Slot(h, a, x + k) == Slot(h, b, y + k)
  }

  // The `n` slots from `x` on in one registry are those from `y` on in the other.
  ghost predicate SameRun(h: Hashing, a: seq<Digest>, x: nat, b: seq<Digest>, y: nat, n: nat) {
    forall k :: 0 <= k < n ==> SameAt(h, a, x, b, y, k)
  }

  lemma SameRunSplits(h: Hashing, a: seq<Digest>, x: nat, b: seq<Digest>, y: nat, p: nat)
    ensures SameRun(h, a, x, b, y, 2 * p) <==> SameRun(h, a, x, b, y, p) && SameRun(h, a, x + p, b, y + p, p)
  {
    hide Slot;
    if SameRun(h, a, x, b, y, 2 * p) {
      var x1, y1 := x + p, y + p;
      forall k | 0 <= k < p ensures SameAt(h, a, x1, b, y1, k) {
        assert SameAt(h, a, x, b, y, p + k);
      }
    }
    if SameRun(h, a, x, b, y, p) && SameRun(h, a, x + p, b, y + p, p) {
      forall k | 0 <= k < 2 * p ensures SameAt(h, a, x, b, y, k) {
        if k >= p {
          assert SameAt(h, a, x + p, b, y + p, k - p);
        }
      }
    }
  }

  lemma ChildrenAgree(h: Hashing, a: seq<Digest>, i: nat, b: seq<Digest>, j: nat, level: nat)
    requires Injective(h)
    ensures Node(h, a, level + 1, i) == Node(h, b, level + 1, j)
            <==> Node(h, a, level, 2 * i) == Node(h, b, level, 2 * j)
                 && Node(h, a, level, 2 * i + 1) == Node(h, b, level, 2 * j + 1)
  {
    hide Node, EmptyAt;
    NodeNext(h, a, level, i);
    NodeNext(h, b, level, j);
  }

  lemma LeafNode(h: Hashing, leaves: seq<Digest>, i: nat)
    ensures Node(h, leaves, 0, i) == Slot(h, leaves, i)
  {
  }

  lemma OneSlotRun(h: Hashing, a: seq<Digest>, i: nat, b: seq<Digest>, j: nat)
    ensures SameRun(h, a, i, b, j, 1) <==> Slot(h, a, i) == Slot(h, b, j)
  {
    hide Slot;
    assert SameAt(h, a, i, b, j, 0) <==> Slot(h, a, i) == Slot(h, b, j);
  }

  lemma TwiceThePosition(i: nat, p: nat)
    ensures i * (2 * p) == 2 * i * p && (2 * i + 1) * p == 2 * i * p + p
  {
  }

  /** Two nodes are equal exactly when the leaves below them are. */
  lemma {:induction false} NodesAgreeIff(h: Hashing, a: seq<Digest>, i: nat, b: seq<Digest>, j: nat, level: nat)
    requires Injective(h)
    ensures Node(h, a, level, i) == Node(h, b, level, j)
            <==> SameRun(h, a, i * Pow2(level), b, j * Pow2(level), Pow2(level))
    decreases level
  {
    hide Node, Slot, Injective, SameRun;
    if level == 0 {
      LeafNode(h, a, i);
      LeafNode(h, b, j);
      OneSlotRun(h, a, i, b, j);
    } else {
      var p := Pow2(level - 1);
      ChildrenAgree(h, a, i, b, j, level - 1);
      TwiceThePosition(i, p);
      TwiceThePosition(j, p);
      SameRunSplits(h, a, 2 * i * p, b, 2 * j * p, p);
      NodesAgreeIff(h, a, 2 * i, b, 2 * j, level - 1);
      NodesAgreeIff(h, a, 2 * i + 1, b, 2 * j + 1, level - 1);
    }
  }

  /** Two registries have one root exactly when they have the same member, or the same empty slot, at every one of
      the first 2^depth indices. */
  lemma RootBindsTheRegistry(h: Hashing, a: seq<Digest>, s: Tree, b: seq<Digest>, t: Tree)
    requires Injective(h) && Built(h, a, s) && Built(h, b, t)
    ensures Root(s) == Root(t) <==> forall k :: 0 <= k < Pow2(h.depth) ==> Slot(h, a, k) == Slot(h, b, k)
  {
    hide Pow2, Slot, Injective;
    SparseRootIsTheRoot(h, a, s);
    SparseRootIsTheRoot(h, b, t);
    NodesAgreeIff(h, a, 0, b, 0, h.depth);
    assert forall k: nat :: SameAt(h, a, 0, b, 0, k) <==> Slot(h, a, 0 + k) == Slot(h, b, 0 + k);
    if SameRun(h, a, 0, b, 0, Pow2(h.depth)) {
      forall k | 0 <= k < Pow2(h.depth) ensures Slot(h, a, k) == Slot(h, b, k) {
        assert SameAt(h, a, 0, b, 0, k);
      }
    }
  }

  ghost predicate DistinctLeaves(leaves: seq<Digest>) {
    forall i, j :: 0 <= i < j < |leaves| ==> leaves[i] != leaves[j]
  }

  /** A member's own path always leads to the node above it at the tree's depth; with distinct members that is the
      root exactly for the first 2^depth of them. */
  lemma PathReachesTheRootIff(h: Hashing, leaves: seq<Digest>, t: Tree, index: nat)
    requires Injective(h) && Built(h, leaves, t) && DistinctLeaves(leaves) && index < |leaves|
    ensures RootFromPath(h, leaves[index], index, PathOf(h, leaves, 0, index, h.depth)) == Root(t)
            <==> index < Pow2(h.depth)
  {
    hide Pow2, Injective, Node, PathOf, RootFromPath;
    if index < Pow2(h.depth) {
      PathsReachTheRoot(h, leaves, t, index);
    } else {
      LeafNode(h, leaves, index);
      PathClimbs(h, leaves, 0, index, h.depth);
      SparseRootIsTheRoot(h, leaves, t);
      LateMemberHasAnotherNode(h, leaves, index);
    }
  }

  lemma LateMemberHasAnotherNode(h: Hashing, leaves: seq<Digest>, index: nat)
    requires Injective(h) && DistinctLeaves(leaves) && Pow2(h.depth) <= index < |leaves|
    ensures Node(h, leaves, h.depth, Shift(index, h.depth)) != Node(h, leaves, h.depth, 0)
  {
    hide Pow2, Injective, Node, Shift;
    var j, k := Shift(index, h.depth), index % Pow2(h.depth);
    ShiftDivides(index, h.depth);
    ShiftLeaves(index, h.depth);
    NodesAgreeIff(h, leaves, j, leaves, 0, h.depth);
    assert !SameAt(h, leaves, j * Pow2(h.depth), leaves, 0, k);
  }
}
