/** A vote snapshot commits to its votes, however many they are: the texts that are hashed for
    leaves, nodes and the empty list differ, and no two votes share a receipt. */
module Snapshots {
  import opened Wrappers
  import opened Merkle

  // ----- the leaves of a snapshot -----

  datatype Vote = Vote(receipt: string, contestant: string)

  function LeafText(round: string, vote: Vote): string {
    "crownfi-vote-leaf-v1|" + round + "|" + vote.receipt + "|" + vote.contestant
  }

  function Leaves(h: Hash, round: string, votes: seq<Vote>): seq<Digest> {
    seq(|votes|, i requires 0 <= i < |votes| => h(LeafText(round, votes[i])))
  }

  /** Receipts are digests, and the table of votes keeps them apart. */
  ghost predicate Receipts(votes: seq<Vote>) {
    && (forall i :: 0 <= i < |votes| ==> |votes[i].receipt| == WIDTH)
    && (forall i, j :: 0 <= i < j < |votes| ==> votes[i].receipt != votes[j].receipt)
  }

  /** Rounds of one width and receipts of one width can be read back from the text of a leaf. */
  lemma LeafTextBinds(round: string, v: Vote, round': string, w: Vote)
    requires |round| == |round'| && |v.receipt| == |w.receipt|
    requires LeafText(round, v) == LeafText(round', w)
    ensures round == round' && v == w
  {
    var k, l, m := |"crownfi-vote-leaf-v1|"|, |round|, |v.receipt|;
    var a, b := LeafText(round, v), LeafText(round', w);
    assert a[k..k + l] == round && b[k..k + l] == round';
    assert a[k + l + 1..k + l + 1 + m] == v.receipt && b[k + l + 1..k + l + 1 + m] == w.receipt;
    assert a[k + l + m + 2..] == v.contestant && b[k + l + m + 2..] == w.contestant;
  }

  /** The ninth character tells the three kinds of text apart. */
  lemma Tags(round: string, vote: Vote, left: Digest, right: Digest)
    ensures LeafText(round, vote) != NodeText(left, right)
    ensures LeafText(round, vote) != EMPTY_TEXT && NodeText(left, right) != EMPTY_TEXT
  {
    assert LeafText(round, vote)[8] == 'v' && NodeText(left, right)[8] == 'm' && EMPTY_TEXT[8] == 'e';
  }

  // ----- what is hashed -----

  /** The texts of the nodes above one level. */
  function NodeTexts(level: seq<Digest>): seq<string> {
    seq((|level| + 1) / 2, i requires 0 <= i < (|level| + 1) / 2 => NodeText(level[2 * i], Partner(level, i)))
  }

  /** The texts of all nodes above a level, up to the root. */
  function LevelTexts(h: Hash, level: seq<Digest>): seq<string>
    decreases |level|
  {
    if |level| <= 1 then [] else NodeTexts(level) + LevelTexts(h, NextLevel(h, level))
  }

  function LeafTexts(round: string, votes: seq<Vote>): seq<string> {
    seq(|votes|, i requires 0 <= i < |votes| => LeafText(round, votes[i]))
  }

  /** Everything that is hashed to make the root of a snapshot. */
  function SnapshotTexts(h: Hash, round: string, votes: seq<Vote>): seq<string> {
    if |votes| == 0 then [EMPTY_TEXT] else LeafTexts(round, votes) + LevelTexts(h, Leaves(h, round, votes))
  }

  ghost predicate Within(few: seq<string>, texts: seq<string>) {
    forall x :: x in few ==> x in texts
  }

  /** No two of the texts collide. */
  ghost predicate Apart(h: Hash, texts: seq<string>) {
    forall x, y :: x in texts && y in texts && h(x) == h(y) ==> x == y
  }

  // ----- the search for a collision -----

  function Colliding(h: Hash, x: string, texts: seq<string>): Option<string> {
    if |texts| == 0 then None
    else if texts[0] != x && h(texts[0]) == h(x) then Some(texts[0])
    else Colliding(h, x, texts[1..])
  }

  /** The first pair of different texts with one digest. */
  function FindAmong(h: Hash, texts: seq<string>): (string, string) {
    if |texts| == 0 then ("", "")
    else
      match Colliding(h, texts[0], texts[1..])
      case Some(y) => (texts[0], y)
      case None => FindAmong(h, texts[1..])
  }

  lemma {:induction false} CollidingFinds(h: Hash, x: string, texts: seq<string>)
    ensures match Colliding(h, x, texts)
            case Some(y) => Collision(h, x, y)
            case None => forall y :: y in texts && h(y) == h(x) ==> y == x
  {
    if |texts| > 0 {
      CollidingFinds(h, x, texts[1..]);
      assert texts == [texts[0]] + texts[1..];
    }
  }

  lemma {:induction false} FindAmongFinds(h: Hash, texts: seq<string>)
    requires !Apart(h, texts)
    ensures Collision(h, FindAmong(h, texts).0, FindAmong(h, texts).1)
  {
    if |texts| > 0 {
      CollidingFinds(h, texts[0], texts[1..]);
      assert texts == [texts[0]] + texts[1..];
      if Colliding(h, texts[0], texts[1..]).None? {
        FindAmongFinds(h, texts[1..]);
      }
    }
  }

  // ----- levels of different nodes -----

  ghost predicate Distinct(level: seq<Digest>) {
    forall i, j :: 0 <= i < j < |level| ==> level[i] != level[j]
  }

  /** A level above which nothing collides. */
  ghost predicate Clear(h: Hash, level: seq<Digest>, texts: seq<string>) {
    Wide(h) && |level| > 0 && Widths(level) && Distinct(level) && Apart(h, texts) && Within(LevelTexts(h, level), texts)
  }

  lemma NodeIsHashed(h: Hash, level: seq<Digest>, texts: seq<string>, i: nat)
    requires Clear(h, level, texts) && |level| > 1 && 2 * i < |level|
    ensures NodeText(level[2 * i], Partner(level, i)) in texts
    ensures NextLevel(h, level)[i] == h(NodeText(level[2 * i], Partner(level, i)))
  {
    NextLevelAt(h, level, i);
    assert NodeTexts(level)[i] in LevelTexts(h, level);
  }

  /** Different nodes have different parents. */
  lemma ClearRises(h: Hash, level: seq<Digest>, texts: seq<string>)
    requires Clear(h, level, texts) && |level| > 1
    ensures Clear(h, NextLevel(h, level), texts)
  {
    var next := NextLevel(h, level);
    NextLevelWidths(h, level);
    forall i, j | 0 <= i < j < |next|
      ensures next[i] != next[j]
    {
      NodeIsHashed(h, level, texts, i);
      NodeIsHashed(h, level, texts, j);
      if next[i] == next[j] {
        NodeTextBinds(level[2 * i], Partner(level, i), level[2 * j], Partner(level, j));
      }
    }
  }

  /** Levels with one next level are equal: an odd one would need its last node twice. */
  lemma SameNextSameLevel(h: Hash, a: seq<Digest>, b: seq<Digest>, texts: seq<string>)
    requires Clear(h, a, texts) && Clear(h, b, texts) && |a| > 1 && |b| > 1
    requires NextLevel(h, a) == NextLevel(h, b)
    ensures a == b
  {
    forall i | 0 <= i < (|a| + 1) / 2
      ensures a[2 * i] == b[2 * i] && Partner(a, i) == Partner(b, i)
    {
      NodeIsHashed(h, a, texts, i);
      NodeIsHashed(h, b, texts, i);
      NodeTextBinds(a[2 * i], Partner(a, i), b[2 * i], Partner(b, i));
    }
    var last := (|a| + 1) / 2 - 1;
    assert a[2 * last] == b[2 * last] && Partner(a, last) == Partner(b, last);
    assert |a| == |b|;
    forall k | 0 <= k < |a|
      ensures a[k] == b[k]
    {
      assert a[2 * (k / 2)] == b[2 * (k / 2)] && Partner(a, k / 2) == Partner(b, k / 2);
    }
  }

  /** How many levels lie above a level of n nodes. */
  function Height(n: nat): nat {
    if n <= 1 then 0 else 1 + Height((n + 1) / 2)
  }

  lemma {:induction false} SameHeightSameLevel(h: Hash, a: seq<Digest>, b: seq<Digest>, texts: seq<string>)
    requires Clear(h, a, texts) && Clear(h, b, texts)
    requires Height(|a|) == Height(|b|) && Root(h, a) == Root(h, b)
    ensures a == b
    decreases |a|
  {
    if |a| > 1 {
      ClearRises(h, a, texts);
      ClearRises(h, b, texts);
      SameHeightSameLevel(h, NextLevel(h, a), NextLevel(h, b), texts);
      SameNextSameLevel(h, a, b, texts);
    }
  }

  /** If one tree is higher than the other, the first leaf of the lower one is a node. */
  lemma {:induction false} LeafMeetsNode(h: Hash, a: seq<Digest>, b: seq<Digest>, texts: seq<string>) returns (left: Digest, right: Digest)
    requires Clear(h, a, texts) && Clear(h, b, texts)
    requires Height(|a|) < Height(|b|) && Root(h, a) == Root(h, b)
    ensures NodeText(left, right) in texts && a[0] == h(NodeText(left, right))
    decreases |b|
  {
    ClearRises(h, b, texts);
    if Height(|a|) == Height(|NextLevel(h, b)|) {
      SameHeightSameLevel(h, a, NextLevel(h, b), texts);
      NodeIsHashed(h, b, texts, 0);
      left, right := b[0], Partner(b, 0);
    } else {
      left, right := LeafMeetsNode(h, a, NextLevel(h, b), texts);
    }
  }

  // ----- binding -----

  ghost predicate Covered(h: Hash, round: string, votes: seq<Vote>, texts: seq<string>) {
    Wide(h) && Receipts(votes) && Apart(h, texts) && Within(SnapshotTexts(h, round, votes), texts)
  }

  lemma LeafIsHashed(h: Hash, round: string, votes: seq<Vote>, texts: seq<string>, i: nat)
    requires Covered(h, round, votes, texts) && i < |votes|
    ensures LeafText(round, votes[i]) in texts && Leaves(h, round, votes)[i] == h(LeafText(round, votes[i]))
  {
    assert LeafTexts(round, votes)[i] in SnapshotTexts(h, round, votes);
  }

  /** Different receipts make different leaves. */
  lemma LeavesAreClear(h: Hash, round: string, votes: seq<Vote>, texts: seq<string>)
    requires Covered(h, round, votes, texts) && |votes| > 0
    ensures Clear(h, Leaves(h, round, votes), texts)
  {
    var leaves := Leaves(h, round, votes);
    forall i, j | 0 <= i < j < |leaves|
      ensures leaves[i] != leaves[j]
    {
      LeafIsHashed(h, round, votes, texts, i);
      LeafIsHashed(h, round, votes, texts, j);
      if leaves[i] == leaves[j] {
        LeafTextBinds(round, votes[i], round, votes[j]);
      }
    }
  }

  /** The root over some leaves is a leaf or a node, never the root of the empty list. */
  lemma NotEmpty(h: Hash, round: string, votes: seq<Vote>, texts: seq<string>)
    requires Covered(h, round, votes, texts) && |votes| > 0 && EMPTY_TEXT in texts
    ensures Root(h, Leaves(h, round, votes)) != h(EMPTY_TEXT)
  {
    var leaves := Leaves(h, round, votes);
    LeafIsHashed(h, round, votes, texts, 0);
    if |votes| == 1 {
      Tags(round, votes[0], "", "");
    } else {
      LeavesAreClear(h, round, votes, texts);
      var left, right := RootIsNode(h, leaves, texts);
      Tags(round, votes[0], left, right);
    }
  }

  lemma {:induction false} RootIsNode(h: Hash, level: seq<Digest>, texts: seq<string>) returns (left: Digest, right: Digest)
    requires Clear(h, level, texts) && |level| > 1
    ensures NodeText(left, right) in texts && Root(h, level) == h(NodeText(left, right))
    decreases |level|
  {
    if |level| == 2 {
      NodeIsHashed(h, level, texts, 0);
      left, right := level[0], Partner(level, 0);
    } else {
      ClearRises(h, level, texts);
      left, right := RootIsNode(h, NextLevel(h, level), texts);
    }
  }

  lemma LowerTreeCannot(h: Hash, round: string, v: seq<Vote>, round': string, w: seq<Vote>, texts: seq<string>)
    requires Covered(h, round, v, texts) && Covered(h, round', w, texts) && |v| > 0 && |w| > 0
    requires Root(h, Leaves(h, round, v)) == Root(h, Leaves(h, round', w))
    ensures Height(|v|) >= Height(|w|)
  {
    if Height(|v|) < Height(|w|) {
      LeavesAreClear(h, round, v, texts);
      LeavesAreClear(h, round', w, texts);
      var left, right := LeafMeetsNode(h, Leaves(h, round, v), Leaves(h, round', w), texts);
      LeafIsHashed(h, round, v, texts, 0);
      Tags(round, v[0], left, right);
    }
  }

  /** Where nothing collides the root fixes the votes, and the round of at least one vote. */
  lemma SameRootSameVotes(h: Hash, round: string, v: seq<Vote>, round': string, w: seq<Vote>, texts: seq<string>)
    requires Covered(h, round, v, texts) && Covered(h, round', w, texts) && |round| == |round'|
    requires Root(h, Leaves(h, round, v)) == Root(h, Leaves(h, round', w))
    ensures v == w && (|v| > 0 ==> round == round')
  {
    if |v| == 0 && |w| == 0 {
    } else if |v| == 0 {
      NotEmpty(h, round', w, texts);
    } else if |w| == 0 {
      NotEmpty(h, round, v, texts);
    } else {
      LowerTreeCannot(h, round, v, round', w, texts);
      LowerTreeCannot(h, round', w, round, v, texts);
      LeavesAreClear(h, round, v, texts);
      LeavesAreClear(h, round', w, texts);
      SameHeightSameLevel(h, Leaves(h, round, v), Leaves(h, round', w), texts);
      assert |v| == |Leaves(h, round, v)| == |w|;
      forall i | 0 <= i < |v|
        ensures v[i] == w[i] && round == round'
      {
        LeafIsHashed(h, round, v, texts, i);
        LeafIsHashed(h, round', w, texts, i);
        LeafTextBinds(round, v[i], round', w[i]);
      }
    }
  }

  /** Two different texts with one digest among those that two snapshots hash. */
  function FindSnapshotCollision(h: Hash, round: string, v: seq<Vote>, round': string, w: seq<Vote>): (string, string) {
    FindAmong(h, SnapshotTexts(h, round, v) + SnapshotTexts(h, round', w))
  }

  /** A snapshot commits to its round and to its votes, whatever their number: two different
      vote lists of any lengths with one root, or the same votes in two rounds, give a collision
      of the digest. */
  lemma SnapshotBindsVotes(h: Hash, round: string, v: seq<Vote>, round': string, w: seq<Vote>)
    requires Wide(h) && Receipts(v) && Receipts(w) && |round| == |round'|
    requires v != w || (|v| > 0 && round != round')
    requires Root(h, Leaves(h, round, v)) == Root(h, Leaves(h, round', w))
    ensures var pair := FindSnapshotCollision(h, round, v, round', w); Collision(h, pair.0, pair.1)
  {
    var texts := SnapshotTexts(h, round, v) + SnapshotTexts(h, round', w);
    if Apart(h, texts) {
      SameRootSameVotes(h, round, v, round', w, texts);
    } else {
      FindAmongFinds(h, texts);
    }
  }

  // ----- what a proof proves -----

  /** The texts hashed on the way up. */
  function ClimbTexts(h: Hash, leaf: Digest, proof: seq<ProofStep>): seq<string> {
    if |proof| == 0 then []
    else
      var init, last := proof[..|proof| - 1], proof[|proof| - 1];
      ClimbTexts(h, leaf, init) + [StepText(Climb(h, leaf, init), last)]
  }

  lemma {:induction false} ClimbLast(h: Hash, leaf: Digest, proof: seq<ProofStep>)
    requires |proof| > 0
    ensures Climb(h, leaf, proof) == h(StepText(Climb(h, leaf, proof[..|proof| - 1]), proof[|proof| - 1]))
    decreases |proof|
  {
    if |proof| > 1 {
      ClimbLast(h, Combine(h, leaf, proof[0]), proof[1..]);
      assert proof[1..][..|proof| - 2] == proof[..|proof| - 1][1..];
    }
  }

  lemma {:induction false} ClimbWidth(h: Hash, leaf: Digest, proof: seq<ProofStep>)
    requires Wide(h) && |leaf| == WIDTH
    ensures |Climb(h, leaf, proof)| == WIDTH
    decreases |proof|
  {
    if |proof| > 0 {
      ClimbLast(h, leaf, proof);
    }
  }

  /** A leaf, or a node of any level above. */
  predicate InTree(h: Hash, level: seq<Digest>, node: Digest)
    decreases |level|
  {
    node in level || (|level| > 1 && InTree(h, NextLevel(h, level), node))
  }

  lemma {:induction false} RootInTree(h: Hash, level: seq<Digest>)
    requires |level| > 0
    ensures InTree(h, level, Root(h, level))
    decreases |level|
  {
    if |level| > 1 {
      RootInTree(h, NextLevel(h, level));
    }
  }

  /** A node of the tree is a leaf, or hashed from two nodes of the tree. */
  lemma {:induction false} NodeHasChildren(h: Hash, level: seq<Digest>, node: Digest) returns (left: Digest, right: Digest)
    requires InTree(h, level, node) && node !in level && Wide(h) && Widths(level)
    ensures NodeText(left, right) in LevelTexts(h, level) && node == h(NodeText(left, right)) && |left| == WIDTH
    ensures InTree(h, level, left) && InTree(h, level, right)
    decreases |level|
  {
    var next := NextLevel(h, level);
    NextLevelWidths(h, level);
    if node in next {
      var i :| 0 <= i < |next| && next[i] == node;
      NextLevelAt(h, level, i);
      left, right := level[2 * i], Partner(level, i);
      assert NodeTexts(level)[i] in LevelTexts(h, level);
    } else {
      left, right := NodeHasChildren(h, next, node);
    }
  }

  /** Where nothing collides, whatever climbs to a node of the tree started from one. */
  lemma {:induction false} ClimbStartsInTree(h: Hash, level: seq<Digest>, leaf: Digest, proof: seq<ProofStep>, node: Digest, texts: seq<string>)
    requires Wide(h) && Widths(level) && |leaf| == WIDTH && StepWidths(proof)
    requires Apart(h, texts) && Within(LevelTexts(h, level), texts) && Within(ClimbTexts(h, leaf, proof), texts)
    requires forall x, l, r :: x in level && NodeText(l, r) in texts ==> x != h(NodeText(l, r))
    requires InTree(h, level, node) && Climb(h, leaf, proof) == node
    ensures InTree(h, level, leaf)
    decreases |proof|
  {
    if |proof| > 0 {
      var init, step := proof[..|proof| - 1], proof[|proof| - 1];
      var below := Climb(h, leaf, init);
      ClimbLast(h, leaf, proof);
      ClimbWidth(h, leaf, init);
      assert StepText(below, step) in ClimbTexts(h, leaf, proof);
      assert StepText(below, step) == if step.position == Left then NodeText(step.hash, below) else NodeText(below, step.hash);
      var left, right := NodeHasChildren(h, level, node);
      if step.position == Left {
        NodeTextBinds(step.hash, below, left, right);
      } else {
        NodeTextBinds(below, step.hash, left, right);
      }
      ClimbStartsInTree(h, level, leaf, init, below, texts);
    }
  }

  /** Everything hashed by a snapshot and by the verification of a proof of one vote. */
  function ProofTexts(h: Hash, round: string, votes: seq<Vote>, vote: Vote, proof: seq<ProofStep>): seq<string> {
    SnapshotTexts(h, round, votes) + [LeafText(round, vote)] + ClimbTexts(h, h(LeafText(round, vote)), proof)
  }

  /** Where nothing collides, a proof that verifies is a proof of a vote that was counted. */
  lemma ClearProofIsHonest(h: Hash, round: string, votes: seq<Vote>, vote: Vote, proof: seq<ProofStep>, texts: seq<string>)
    requires Covered(h, round, votes, texts) && |vote.receipt| == WIDTH && StepWidths(proof)
    requires texts == ProofTexts(h, round, votes, vote, proof)
    requires Climb(h, h(LeafText(round, vote)), proof) == Root(h, Leaves(h, round, votes))
    ensures vote in votes
  {
    var leaves, leaf := Leaves(h, round, votes), h(LeafText(round, vote));
    assert LeafText(round, vote) in texts;
    if |votes| == 0 {
      assert EMPTY_TEXT in texts;
      Tags(round, vote, "", "");
      var init, step := proof[..|proof| - 1], proof[|proof| - 1];
      ClimbLast(h, leaf, proof);
      assert StepText(Climb(h, leaf, init), step) in texts;
      Tags(round, vote, step.hash, Climb(h, leaf, init));
      Tags(round, vote, Climb(h, leaf, init), step.hash);
    } else {
      LeavesAreClear(h, round, votes, texts);
      LeavesAreNoNodes(h, round, votes, texts);
      RootInTree(h, leaves);
      ClimbStartsInTree(h, leaves, leaf, proof, Root(h, leaves), texts);
      if leaf !in leaves {
        var left, right := NodeHasChildren(h, leaves, leaf);
        Tags(round, vote, left, right);
      }
      var i :| 0 <= i < |leaves| && leaves[i] == leaf;
      LeafIsHashed(h, round, votes, texts, i);
      LeafTextBinds(round, votes[i], round, vote);
    }
  }

  lemma LeavesAreNoNodes(h: Hash, round: string, votes: seq<Vote>, texts: seq<string>)
    requires Covered(h, round, votes, texts)
    ensures forall x, l, r :: x in Leaves(h, round, votes) && NodeText(l, r) in texts ==> x != h(NodeText(l, r))
  {
    forall x, l, r | x in Leaves(h, round, votes) && NodeText(l, r) in texts
      ensures x != h(NodeText(l, r))
    {
      var i :| 0 <= i < |votes| && Leaves(h, round, votes)[i] == x;
      LeafIsHashed(h, round, votes, texts, i);
      Tags(round, votes[i], l, r);
    }
  }

  /** No proof, of whatever length and positions, verifies for a vote that was not counted: if one
      does, two of the texts hashed for the snapshot and for the verification collide. */
  lemma VerifiedVoteWasCounted(h: Hash, round: string, votes: seq<Vote>, vote: Vote, proof: seq<ProofStep>)
    requires Wide(h) && Receipts(votes) && |vote.receipt| == WIDTH && StepWidths(proof)
    requires Climb(h, h(LeafText(round, vote)), proof) == Root(h, Leaves(h, round, votes))
    requires vote !in votes
    ensures var pair := FindAmong(h, ProofTexts(h, round, votes, vote, proof)); Collision(h, pair.0, pair.1)
  {
    var texts := ProofTexts(h, round, votes, vote, proof);
    if Apart(h, texts) {
      ClearProofIsHonest(h, round, votes, vote, proof, texts);
    } else {
      FindAmongFinds(h, texts);
    }
  }

  // ----- what the root of a list with a repeated leaf does not fix -----

  /** The root alone does not tell a list from the same list with its last leaf repeated. No
      snapshot has such leaves. */
  lemma OddListSharesRoot(h: Hash, leaves: seq<Digest>)
    requires |leaves| >= 3 && |leaves| % 2 == 1
    ensures Root(h, leaves + [leaves[|leaves| - 1]]) == Root(h, leaves)
  {
    SameNextLevel(h, leaves);
  }

  lemma SameNextLevel(h: Hash, leaves: seq<Digest>)
    requires |leaves| % 2 == 1
    ensures NextLevel(h, leaves + [leaves[|leaves| - 1]]) == NextLevel(h, leaves)
  {
    var longer := leaves + [leaves[|leaves| - 1]];
    var a, b := NextLevel(h, longer), NextLevel(h, leaves);
    assert |a| == |b|;
    forall i | 0 <= i < |b|
      ensures a[i] == b[i]
    {
      NextLevelAt(h, longer, i);
      NextLevelAt(h, leaves, i);
    }
  }
}
