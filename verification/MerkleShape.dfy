/** Which digest a vote tree has, and which digests a proof lists: a reference tree built from the
    top, with every hashed text written out. */
module MerkleShape {
  import opened Bits
  import opened Merkle
  import Snapshots

  /** The tree over up to 2^height leaves: a missing right half repeats the left one. */
  function Tree(h: Hash, leaves: seq<Digest>, height: nat): Digest
    requires 1 <= |leaves| <= Pow2(height)
    decreases height
  {
    if height == 0 then leaves[0]
    else
      var half := Pow2(height - 1);
      var left := Tree(h, leaves[..if |leaves| <= half then |leaves| else half], height - 1);
      var right := if |leaves| <= half then left else Tree(h, leaves[half..], height - 1);
      h("crownfi-merkle-node-v1|" + left + "|" + right)
  }

  lemma Small(h: Hash, leaves: seq<Digest>, height: nat)
    requires height > 0 && 1 <= |leaves| <= Pow2(height - 1)
    ensures |leaves| <= Pow2(height)
    ensures Tree(h, leaves, height) == h(NodeText(Tree(h, leaves, height - 1), Tree(h, leaves, height - 1)))
  {
    assert leaves[..|leaves|] == leaves;
  }

  lemma Large(h: Hash, left: seq<Digest>, right: seq<Digest>, height: nat)
    requires height > 0 && |left| == Pow2(height - 1) && 1 <= |right| <= |left|
    ensures |left + right| <= Pow2(height)
    ensures Tree(h, left + right, height) == h(NodeText(Tree(h, left, height - 1), Tree(h, right, height - 1)))
  {
    var leaves := left + right;
    assert leaves[..|left|] == left && leaves[|left|..] == right;
  }

  /** The level above an even number of nodes and some more. */
  lemma NextOfBoth(h: Hash, left: seq<Digest>, right: seq<Digest>)
    requires |left| % 2 == 0
    ensures NextLevel(h, left + right) == NextLevel(h, left) + NextLevel(h, right)
  {
    var level := left + right;
    hide NextLevel, Node;
    forall i | 0 <= i < |NextLevel(h, level)|
      ensures NextLevel(h, level)[i] == (NextLevel(h, left) + NextLevel(h, right))[i]
    {
      NextLevelAt(h, level, i);
      if 2 * i < |left| {
        NextLevelAt(h, left, i);
        NodeOfLeft(h, left, right, i);
      } else {
        NextLevelAt(h, right, i - |left| / 2);
        NodeOfRight(h, left, right, i);
      }
    }
  }

  lemma NodeOfLeft(h: Hash, left: seq<Digest>, right: seq<Digest>, i: nat)
    requires |left| % 2 == 0 && 2 * i < |left|
    ensures Node(h, left + right, i) == Node(h, left, i)
  {
  }

  lemma NodeOfRight(h: Hash, left: seq<Digest>, right: seq<Digest>, i: nat)
    requires |left| % 2 == 0 && |left| <= 2 * i < |left| + |right|
    ensures Node(h, left + right, i) == Node(h, right, i - |left| / 2)
  {
    var level, j := left + right, i - |left| / 2;
    assert level[2 * i] == right[2 * j];
    assert 2 * i + 1 < |level| ==> level[2 * i + 1] == right[2 * j + 1];
  }

  lemma OnePair(h: Hash, leaves: seq<Digest>)
    requires 1 <= |leaves| <= 2
    ensures NextLevel(h, leaves) == [h(NodeText(leaves[0], leaves[|leaves| - 1]))]
  {
    NextLevelAt(h, leaves, 0);
  }

  lemma Doubles(height: nat)
    requires height > 0
    ensures Pow2(height) == 2 * Pow2(height - 1)
  {
  }

  lemma OnePairIsTree(h: Hash, leaves: seq<Digest>, height: nat)
    requires height == 1 && 1 <= |leaves| <= Pow2(height)
    ensures |NextLevel(h, leaves)| == 1 <= Pow2(height - 1) && Tree(h, NextLevel(h, leaves), height - 1) == Tree(h, leaves, height)
  {
    assert Pow2(height - 1) == 1;
    Doubles(height);
    OnePair(h, leaves);
    hide NextLevel;
    if |leaves| == 1 {
      Small(h, leaves, height);
    } else {
      assert leaves == leaves[..1] + leaves[1..];
      Large(h, leaves[..1], leaves[1..], height);
    }
  }

  /** One level of pairing does not change the tree. */
  lemma {:induction false} PairingKeepsTree(h: Hash, leaves: seq<Digest>, height: nat)
    requires height > 0 && 1 <= |leaves| <= Pow2(height)
    ensures 1 <= |NextLevel(h, leaves)| <= Pow2(height - 1)
    ensures Tree(h, NextLevel(h, leaves), height - 1) == Tree(h, leaves, height)
    decreases height
  {
    hide NextLevel, NodeText, Tree, Pow2;
    Doubles(height);
    if height == 1 {
      OnePairIsTree(h, leaves, height);
    } else {
      var half := Pow2(height - 1);
      Doubles(height - 1);
      if |leaves| <= half {
        Small(h, leaves, height);
        PairingKeepsTree(h, leaves, height - 1);
        Small(h, NextLevel(h, leaves), height - 1);
      } else {
        var left, right := leaves[..half], leaves[half..];
        assert leaves == left + right;
        Large(h, left, right, height);
        PairingKeepsTree(h, left, height - 1);
        PairingKeepsTree(h, right, height - 1);
        NextOfBoth(h, left, right);
        Large(h, NextLevel(h, left), NextLevel(h, right), height - 1);
      }
    }
  }

  /** The root is that of the lowest tree that holds all leaves. */
  lemma {:induction false} RootIsTree(h: Hash, leaves: seq<Digest>, height: nat)
    requires 1 <= |leaves| <= Pow2(height) && (height > 0 ==> Pow2(height - 1) < |leaves|)
    ensures Root(h, leaves) == Tree(h, leaves, height)
    decreases height
  {
    if height > 0 {
      PairingKeepsTree(h, leaves, height);
      assert height > 1 ==> Pow2(height - 1) == 2 * Pow2(height - 2);
      RootIsTree(h, NextLevel(h, leaves), height - 1);
    }
  }

  /** The root of no leaves. */
  lemma EmptyRoot(h: Hash)
    ensures Root(h, []) == h("crownfi-empty-merkle-v1")
  {
  }

  // ----- what a proof lists -----

  function End(count: nat, block: nat, size: nat): nat {
    if (block + 1) * size <= count then (block + 1) * size else count
  }

  /** The leaves of a block of 2^height, fewer at the end of the list. */
  function BlockOf(leaves: seq<Digest>, height: nat, block: nat): (part: seq<Digest>)
    requires block * Pow2(height) < |leaves|
    ensures 1 <= |part| <= Pow2(height)
  {
    assert (block + 1) * Pow2(height) == block * Pow2(height) + Pow2(height);
    leaves[block * Pow2(height)..End(|leaves|, block, Pow2(height))]
  }

  function Level(h: Hash, leaves: seq<Digest>, height: nat): seq<Digest>
    decreases height
  {
    if height == 0 then leaves else Level(h, NextLevel(h, leaves), height - 1)
  }

  lemma {:induction false} PathStep(h: Hash, leaves: seq<Digest>, index: nat, j: nat)
    requires index < |leaves| && j < |Path(h, leaves, index)|
    ensures index / Pow2(j) < |Level(h, leaves, j)| && Path(h, leaves, index)[j] == Sibling(Level(h, leaves, j), index / Pow2(j))
    ensures |Level(h, leaves, j)| > 1
    decreases j
  {
    PathOneLevel(h, leaves, index);
    hide Path, NextLevel;
    if j > 0 {
      PathStep(h, NextLevel(h, leaves), index / 2, j - 1);
      HalfOf(index, Pow2(j - 1));
    }
  }

  lemma HalfOf(index: nat, p: nat)
    requires p > 0
    ensures index / (2 * p) == index / 2 / p
  {
    var q, r := index / 2 / p, index / 2 % p;
    assert index / 2 == p * q + r;
    assert index == 2 * (p * q + r) + index % 2;
    Twice(p, q);
    QuotientIs(index, 2 * p, q, 2 * r + index % 2);
  }

  lemma Twice(p: nat, q: nat)
    ensures 2 * (p * q) == q * (2 * p)
  {
  }

  lemma NextOfThree(h: Hash, a: seq<Digest>, b: seq<Digest>, c: seq<Digest>)
    requires |a| % 2 == 0 && (|c| == 0 || |b| % 2 == 0)
    ensures NextLevel(h, a + (b + c)) == NextLevel(h, a) + (NextLevel(h, b) + NextLevel(h, c))
  {
    hide NextLevel;
    NextOfBoth(h, a, b + c);
    if |c| == 0 {
      assert b + c == b;
      assert NextLevel(h, b) + NextLevel(h, c) == NextLevel(h, b);
    } else {
      NextOfBoth(h, b, c);
    }
  }

  lemma Middle(a: seq<Digest>, b: seq<Digest>, c: seq<Digest>, from: nat, to: nat)
    requires from == |a| && to == |a| + |b|
    ensures (a + (b + c))[from..to] == b
  {
  }

  lemma Cut(s: seq<Digest>, from: nat, to: nat)
    requires from <= to <= |s|
    ensures s == s[..from] + (s[from..to] + s[to..])
  {
  }

  /** The level above a slice that starts and ends with a pair. */
  lemma NextOfSlice(h: Hash, leaves: seq<Digest>, from: nat, to: nat)
    requires from <= to <= |leaves| && from % 2 == 0 && (to == |leaves| || to % 2 == 0)
    ensures NextLevel(h, leaves)[from / 2..(to + 1) / 2] == NextLevel(h, leaves[from..to])
  {
    hide NextLevel;
    var a, b, c := leaves[..from], leaves[from..to], leaves[to..];
    Cut(leaves, from, to);
    NextOfThree(h, a, b, c);
    Middle(NextLevel(h, a), NextLevel(h, b), NextLevel(h, c), from / 2, (to + 1) / 2);
  }

  /** Where block i starts and ends, on a level and on the one above. */
  lemma Bounds(count: nat, p: nat, i: nat)
    requires p > 0
    ensures i * (2 * p) == 2 * (i * p) && (i + 1) * (2 * p) == i * (2 * p) + 2 * p && (i + 1) * p == i * p + p
    ensures (End(count, i, 2 * p) + 1) / 2 == End((count + 1) / 2, i, p)
    ensures End(count, i, 2 * p) == count || End(count, i, 2 * p) % 2 == 0
  {
    var x := i * p;
    Twice(p, i);
    Twice(p, i + 1);
    assert (i + 1) * p == x + p;
    BoundsOf(count, p, x, End(count, i, 2 * p), End((count + 1) / 2, i, p));
  }

  lemma BoundsOf(count: nat, p: nat, x: nat, long: nat, short: nat)
    requires p > 0
    requires long == if 2 * x + 2 * p <= count then 2 * x + 2 * p else count
    requires short == if x + p <= (count + 1) / 2 then x + p else (count + 1) / 2
    ensures (long + 1) / 2 == short && (long == count || long % 2 == 0)
  {
  }

  /** A block of the level above is the level above the block. */
  lemma NextOfBlock(h: Hash, leaves: seq<Digest>, height: nat, block: nat)
    requires height > 0 && block * Pow2(height - 1) < |NextLevel(h, leaves)|
    ensures block * Pow2(height) < |leaves|
    ensures BlockOf(NextLevel(h, leaves), height - 1, block) == NextLevel(h, BlockOf(leaves, height, block))
  {
    var p := Pow2(height - 1);
    Doubles(height);
    Bounds(|leaves|, p, block);
    hide NextLevel, Pow2, End;
    NextOfSlice(h, leaves, block * (2 * p), End(|leaves|, block, 2 * p));
  }

  /** Node i of a level is the tree over block i. */
  lemma {:induction false} LevelIsTrees(h: Hash, leaves: seq<Digest>, height: nat, i: nat)
    requires i < |Level(h, leaves, height)|
    ensures i * Pow2(height) < |leaves| && Level(h, leaves, height)[i] == Tree(h, BlockOf(leaves, height, i), height)
    decreases height
  {
    if height > 0 {
      hide NextLevel, Tree;
      LevelIsTrees(h, NextLevel(h, leaves), height - 1, i);
      NextOfBlock(h, leaves, height, i);
      PairingKeepsTree(h, BlockOf(leaves, height, i), height);
    }
  }

  lemma BlocksLeft(h: Hash, leaves: seq<Digest>, height: nat, i: nat)
    requires i * Pow2(height) < |leaves|
    ensures i < |Level(h, leaves, height)|
    decreases height
  {
    if height > 0 {
      Twice(Pow2(height - 1), i);
      BlocksLeft(h, NextLevel(h, leaves), height - 1, i);
    }
  }

  lemma SiblingIs(level: seq<Digest>, i: nat)
    requires i < |level|
    ensures i % 2 == 1 ==> Sibling(level, i) == ProofStep(Left, level[i - 1])
    ensures i % 2 == 0 ==> Sibling(level, i) == ProofStep(Right, if i + 1 < |level| then level[i + 1] else level[i])
  {
  }

  /** Step j of a proof goes with bit j of the index: a zero bit names the tree over the block to
      the right, or the block's own if there is none, and a one bit the tree over the block to the
      left. */
  lemma ProofSteps(h: Hash, leaves: seq<Digest>, index: nat, j: nat, block: nat)
    requires index < |leaves| && j < |Path(h, leaves, index)| && block == index / Pow2(j)
    ensures block % 2 == 1 ==>
              && (block - 1) * Pow2(j) < |leaves|
              && Path(h, leaves, index)[j] == ProofStep(Left, Tree(h, BlockOf(leaves, j, block - 1), j))
    ensures block % 2 == 0 && (block + 1) * Pow2(j) < |leaves| ==>
              Path(h, leaves, index)[j] == ProofStep(Right, Tree(h, BlockOf(leaves, j, block + 1), j))
    ensures block % 2 == 0 && (block + 1) * Pow2(j) >= |leaves| ==>
              && block * Pow2(j) < |leaves|
              && Path(h, leaves, index)[j] == ProofStep(Right, Tree(h, BlockOf(leaves, j, block), j))
  {
    hide Path, Level, Tree, Sibling, BlockOf, Pow2;
    PathStep(h, leaves, index, j);
    var level := Level(h, leaves, j);
    SiblingIs(level, block);
    LevelIsTrees(h, leaves, j, block);
    if block % 2 == 1 {
      LevelIsTrees(h, leaves, j, block - 1);
    } else if (block + 1) * Pow2(j) < |leaves| {
      BlocksLeft(h, leaves, j, block + 1);
      LevelIsTrees(h, leaves, j, block + 1);
    } else if block + 1 < |level| {
      LevelIsTrees(h, leaves, j, block + 1);
    }
  }

  /** A proof climbs from the leaf, hashing each listed digest on its side. */
  lemma ClimbsUp(h: Hash, leaf: Digest, step: ProofStep, rest: seq<ProofStep>)
    ensures Climb(h, leaf, []) == leaf
    ensures Climb(h, leaf, [step] + rest) ==
            Climb(h, if step.position == Left then h("crownfi-merkle-node-v1|" + step.hash + "|" + leaf)
                     else h("crownfi-merkle-node-v1|" + leaf + "|" + step.hash), rest)
  {
    assert ([step] + rest)[1..] == rest;
  }

  /** The leaf of a vote. */
  lemma VoteLeaf(h: Hash, round: string, votes: seq<Snapshots.Vote>, i: nat)
    requires i < |votes|
    ensures |Snapshots.Leaves(h, round, votes)| == |votes|
    ensures Snapshots.Leaves(h, round, votes)[i] ==
            h("crownfi-vote-leaf-v1|" + round + "|" + votes[i].receipt + "|" + votes[i].contestant)
  {
    LeafTextIs(round, votes[i]);
    hide Snapshots.LeafText;
  }

  lemma LeafTextIs(round: string, vote: Snapshots.Vote)
    ensures Snapshots.LeafText(round, vote) == "crownfi-vote-leaf-v1|" + round + "|" + vote.receipt + "|" + vote.contestant
  {
  }
}
