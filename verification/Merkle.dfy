/** The vote Merkle tree: three separate loops (root, proof, verification) over text
    digests. The digest is a parameter: nothing here depends on SHA-256. */
module Merkle {
  import opened Bits

  type Digest = string

  /** A hash of text to lower-case hexadecimal; only its output width is ever assumed. */
  type Hash = string -> Digest

  const WIDTH: nat := 64

  /** What is hashed for a list without leaves. */
  const EMPTY_TEXT: string := "crownfi-empty-merkle-v1"

  ghost predicate Wide(h: Hash) {
    forall text :: |h(text)| == WIDTH
  }

  datatype Position = Left | Right

  datatype ProofStep = ProofStep(position: Position, hash: Digest)

  datatype Result<+T> = Ok(value: T) | InvalidLeafIndex

  function NodeText(left: Digest, right: Digest): string {
    "crownfi-merkle-node-v1|" + left + "|" + right
  }

  function HashNode(h: Hash, left: Digest, right: Digest): Digest {
    h(NodeText(left, right))
  }

  // ----- what the loops compute -----

  /** The second half of pair i: an odd level pairs its last node with itself. */
  function Partner(level: seq<Digest>, i: nat): Digest
    requires 2 * i < |level|
  {
    if 2 * i + 1 < |level| then level[2 * i + 1] else level[2 * i]
  }

  function NextLevel(h: Hash, level: seq<Digest>): (next: seq<Digest>)
    ensures |next| == (|level| + 1) / 2
  {
    Nodes(h, level, (|level| + 1) / 2)
  }

  /** The nodes above the first n pairs. */
  function Nodes(h: Hash, level: seq<Digest>, n: nat): (nodes: seq<Digest>)
    requires n <= (|level| + 1) / 2
    ensures |nodes| == n
    decreases n
  {
    if n == 0 then [] else Nodes(h, level, n - 1) + [Node(h, level, n - 1)]
  }

  function Node(h: Hash, level: seq<Digest>, i: nat): Digest
    requires 2 * i < |level|
  {
    HashNode(h, level[2 * i], Partner(level, i))
  }

  lemma {:induction false} NodesAt(h: Hash, level: seq<Digest>, n: nat, i: nat)
    requires i < n <= (|level| + 1) / 2
    ensures Nodes(h, level, n)[i] == Node(h, level, i)
    decreases n
  {
    if i < n - 1 {
      NodesAt(h, level, n - 1, i);
    }
  }

  lemma NextLevelAt(h: Hash, level: seq<Digest>, i: nat)
    requires 2 * i < |level|
    ensures NextLevel(h, level)[i] == Node(h, level, i)
  {
    NodesAt(h, level, (|level| + 1) / 2, i);
  }

  function Root(h: Hash, leaves: seq<Digest>): Digest
    decreases |leaves|
  {
    if |leaves| == 0 then h(EMPTY_TEXT)
    else if |leaves| == 1 then leaves[0]
    else Root(h, NextLevel(h, leaves))
  }

  function Sibling(level: seq<Digest>, index: nat): ProofStep
    requires index < |level|
  {
    if index % 2 == 0 then ProofStep(Right, Partner(level, index / 2)) else ProofStep(Left, level[index - 1])
  }

  function Path(h: Hash, level: seq<Digest>, index: nat): seq<ProofStep>
    requires index < |level|
    decreases |level|
  {
    if |level| == 1 then [] else [Sibling(level, index)] + Path(h, NextLevel(h, level), index / 2)
  }

  function Combine(h: Hash, current: Digest, step: ProofStep): Digest {
    if step.position == Left then HashNode(h, step.hash, current) else HashNode(h, current, step.hash)
  }

  function Climb(h: Hash, leaf: Digest, proof: seq<ProofStep>): Digest
    decreases |proof|
  {
    if proof == [] then leaf else Climb(h, Combine(h, leaf, proof[0]), proof[1..])
  }

  // ----- the loops -----

  method HashLevel(h: Hash, level: seq<Digest>) returns (next: seq<Digest>)
    ensures next == NextLevel(h, level)
  {
    next := [];
    var start := 0;
    while start < |level|
      invariant start == 2 * |next| && |next| <= (|level| + 1) / 2
      invariant next == Nodes(h, level, |next|)
      decreases |level| + 1 - start
    {
      var pair := level[start..if start + 2 <= |level| then start + 2 else |level|];
      var left := pair[0];
      var right := if |pair| > 1 then pair[1] else pair[0];
      next := next + [HashNode(h, left, right)];
      start := start + 2;
    }
  }

  method MerkleRoot(h: Hash, leaves: seq<Digest>) returns (root: Digest)
    ensures root == Root(h, leaves)
  {
    if |leaves| == 0 {
      return h(EMPTY_TEXT);
    }
    var level := leaves;
    while |level| > 1
      invariant |level| >= 1
      invariant Root(h, level) == Root(h, leaves)
    {
      level := HashLevel(h, level);
    }
    root := level[0];
  }

  method MerkleProof(h: Hash, leaves: seq<Digest>, leafIndex: nat) returns (r: Result<seq<ProofStep>>)
    ensures leafIndex >= |leaves| <==> r.InvalidLeafIndex?
    ensures r.Ok? ==> r.value == Path(h, leaves, leafIndex)
  {
    if |leaves| == 0 || leafIndex >= |leaves| {
      return InvalidLeafIndex;
    }
    var level := leaves;
    var index := leafIndex;
    var proof := [];
    while |level| > 1
      invariant 0 <= index < |level|
      invariant proof + Path(h, level, index) == Path(h, leaves, leafIndex)
      decreases |level|
    {
      SiblingInRange(level, index);
      var siblingIndex := if index % 2 == 0 then Min(index + 1, |level| - 1) else index - 1;
      var step := ProofStep(if index % 2 == 0 then Right else Left, level[siblingIndex]);
      var next := HashLevel(h, level);
      PathOneLevel(h, level, index);
      assert proof + ([step] + Path(h, next, index / 2)) == (proof + [step]) + Path(h, next, index / 2);
      proof := proof + [step];
      level := next;
      index := index / 2;
    }
    r := Ok(proof);
  }

  lemma SiblingInRange(level: seq<Digest>, index: nat)
    requires index < |level| && |level| > 1
    ensures index % 2 == 1 ==> index - 1 >= 0 && Sibling(level, index) == ProofStep(Left, level[index - 1])
    ensures index % 2 == 0 ==> Sibling(level, index) == ProofStep(Right, level[Min(index + 1, |level| - 1)])
  {
  }

  function Min(a: nat, b: nat): nat {
    if a < b then a else b
  }

  method VerifyProof(h: Hash, leaf: Digest, proof: seq<ProofStep>, expectedRoot: Digest) returns (ok: bool)
    ensures ok <==> Climb(h, leaf, proof) == expectedRoot
  {
    var current := leaf;
    for i := 0 to |proof|
      invariant Climb(h, current, proof[i..]) == Climb(h, leaf, proof)
    {
      var step := proof[i];
      current := if step.position == Left then HashNode(h, step.hash, current) else HashNode(h, current, step.hash);
    }
    ok := current == expectedRoot;
  }

  // ----- completeness -----

  /** Every generated proof verifies against the separately computed root, through odd
      levels that duplicate their last node. */
  lemma {:induction false} ProofsVerify(h: Hash, leaves: seq<Digest>, index: nat)
    requires index < |leaves|
    ensures Climb(h, leaves[index], Path(h, leaves, index)) == Root(h, leaves)
    decreases |leaves|
  {
    if |leaves| > 1 {
      var next := NextLevel(h, leaves);
      ProofsVerify(h, next, index / 2);
      ClimbOneLevel(h, leaves, index);
    }
  }

  /** The first step of a generated proof leads to the node above. */
  lemma ClimbOneLevel(h: Hash, level: seq<Digest>, index: nat)
    requires index < |level| && |level| > 1
    ensures var next := NextLevel(h, level);
            Climb(h, level[index], Path(h, level, index)) == Climb(h, next[index / 2], Path(h, next, index / 2))
  {
    NextLevelAt(h, level, index / 2);
    StepLeadsUp(h, level, index);
    assert Path(h, level, index)[1..] == Path(h, NextLevel(h, level), index / 2);
  }

  lemma StepLeadsUp(h: Hash, level: seq<Digest>, index: nat)
    requires index < |level| && |level| > 1
    ensures Combine(h, level[index], Sibling(level, index)) == Node(h, level, index / 2)
  {
  }

  /** A proof has as many steps as the base-two logarithm of the leaf count, rounded up. */
  lemma {:induction false} ProofLength(h: Hash, leaves: seq<Digest>, index: nat)
    requires index < |leaves|
    ensures var n := |Path(h, leaves, index)|;
            |leaves| <= Pow2(n) && (n > 0 ==> Pow2(n - 1) < |leaves|)
    decreases |leaves|
  {
    if |leaves| > 1 {
      ProofLength(h, NextLevel(h, leaves), index / 2);
      PathOneLevel(h, leaves, index);
      CeilingOfLog(|leaves|, |Path(h, NextLevel(h, leaves), index / 2)|);
    }
  }

  lemma CeilingOfLog(count: nat, n: nat)
    requires count > 1 && (count + 1) / 2 <= Pow2(n) && (n > 0 ==> Pow2(n - 1) < (count + 1) / 2)
    ensures count <= Pow2(n + 1) && Pow2(n) < count
  {
  }

  lemma PathOneLevel(h: Hash, level: seq<Digest>, index: nat)
    requires index < |level| && |level| > 1
    ensures Path(h, level, index) == [Sibling(level, index)] + Path(h, NextLevel(h, level), index / 2)
  {
  }

  // ----- binding -----

  /** Two different texts with the same digest. */
  ghost predicate Collision(h: Hash, x: string, y: string) {
    x != y && h(x) == h(y)
  }

  /** Fixed-width halves can be read back from the text that is hashed. */
  lemma NodeTextBinds(l1: Digest, r1: Digest, l2: Digest, r2: Digest)
    requires |l1| == |l2|
    requires NodeText(l1, r1) == NodeText(l2, r2)
    ensures l1 == l2 && r1 == r2
  {
    var tag := "crownfi-merkle-node-v1|";
    var a, b := NodeText(l1, r1), NodeText(l2, r2);
    var m, n := |tag|, |l1|;
    assert a[m..m + n] == l1 && b[m..m + n] == l2;
    assert a[m + n + 1..] == r1 && b[m + n + 1..] == r2;
  }

  ghost predicate Widths(level: seq<Digest>) {
    forall i :: 0 <= i < |level| ==> |level[i]| == WIDTH
  }

  function FirstDifference(a: seq<Digest>, b: seq<Digest>): (i: nat)
    requires |a| == |b| && a != b
    ensures i < |a| && a[i] != b[i] && a[..i] == b[..i]
  {
    if a[0] != b[0] then 0 else
      assert a == [a[0]] + a[1..] && b == [b[0]] + b[1..];
      1 + FirstDifference(a[1..], b[1..])
  }

  /** From two different leaf lists of one length with one root, computes two texts that
      collide: the pair of node texts above the first difference of the highest level
      whose hashes agree. */
  function FindCollision(h: Hash, a: seq<Digest>, b: seq<Digest>): (pair: (string, string))
    requires |a| == |b| && a != b
    decreases |a|
  {
    if |a| <= 1 then ("", "")
    else if NextLevel(h, a) == NextLevel(h, b) then
      var i := FirstDifference(a, b) / 2;
      (NodeText(a[2 * i], Partner(a, i)), NodeText(b[2 * i], Partner(b, i)))
    else FindCollision(h, NextLevel(h, a), NextLevel(h, b))
  }

  lemma PairHoldsDifference(a: seq<Digest>, b: seq<Digest>, d: nat)
    requires |a| == |b| && d < |a| && a[d] != b[d]
    ensures a[2 * (d / 2)] != b[2 * (d / 2)] || Partner(a, d / 2) != Partner(b, d / 2)
  {
  }

  lemma NextLevelWidths(h: Hash, level: seq<Digest>)
    requires Wide(h)
    ensures Widths(NextLevel(h, level))
  {
    forall i | 0 <= i < |NextLevel(h, level)|
      ensures |NextLevel(h, level)[i]| == WIDTH
    {
      NextLevelAt(h, level, i);
    }
  }

  /** Binding: leaf lists of equal length with equal roots are equal, or FindCollision
      turns them into a collision of the digest. */
  lemma {:induction false} RootBinds(h: Hash, a: seq<Digest>, b: seq<Digest>)
    requires Wide(h) && Widths(a) && Widths(b)
    requires |a| == |b| && a != b
    requires Root(h, a) == Root(h, b)
    ensures Collision(h, FindCollision(h, a, b).0, FindCollision(h, a, b).1)
    decreases |a|
  {
    var na, nb := NextLevel(h, a), NextLevel(h, b);
    if |a| > 1 {
      if na == nb {
        var d := FirstDifference(a, b);
        var i := d / 2;
        var x, y := NodeText(a[2 * i], Partner(a, i)), NodeText(b[2 * i], Partner(b, i));
        NextLevelAt(h, a, i);
        NextLevelAt(h, b, i);
        assert h(x) == na[i] == nb[i] == h(y);
        if x == y {
          NodeTextBinds(a[2 * i], Partner(a, i), b[2 * i], Partner(b, i));
          PairHoldsDifference(a, b, d);
        }
      } else {
        NextLevelWidths(h, a);
        NextLevelWidths(h, b);
        RootBinds(h, na, nb);
      }
    }
  }

  /** The two texts hashed at the first level where two climbs with the same positions part. */
  function FindProofCollision(h: Hash, x: Digest, p: seq<ProofStep>, y: Digest, q: seq<ProofStep>): (pair: (string, string))
    requires |p| == |q|
    decreases |p|
  {
    if p == [] then ("", "")
    else
      var a, b := Combine(h, x, p[0]), Combine(h, y, q[0]);
      if a == b && (x != y || p[0] != q[0]) then (StepText(x, p[0]), StepText(y, q[0]))
      else FindProofCollision(h, a, p[1..], b, q[1..])
  }

  function StepText(current: Digest, step: ProofStep): string {
    if step.position == Left then NodeText(step.hash, current) else NodeText(current, step.hash)
  }

  ghost predicate SamePositions(p: seq<ProofStep>, q: seq<ProofStep>) {
    |p| == |q| && forall i :: 0 <= i < |p| ==> p[i].position == q[i].position
  }

  ghost predicate StepWidths(p: seq<ProofStep>) {
    forall i :: 0 <= i < |p| ==> |p[i].hash| == WIDTH
  }

  lemma {:induction false} ClimbBinds(h: Hash, x: Digest, p: seq<ProofStep>, y: Digest, q: seq<ProofStep>)
    requires Wide(h) && |x| == |y| == WIDTH && StepWidths(p) && StepWidths(q)
    requires SamePositions(p, q) && Climb(h, x, p) == Climb(h, y, q)
    requires x != y || p != q
    ensures var pair := FindProofCollision(h, x, p, y, q); Collision(h, pair.0, pair.1)
    decreases |p|
  {
    if p != [] {
      var a, b := Combine(h, x, p[0]), Combine(h, y, q[0]);
      if a == b && (x != y || p[0] != q[0]) {
        if StepText(x, p[0]) == StepText(y, q[0]) {
          if p[0].position == Left {
            NodeTextBinds(p[0].hash, x, q[0].hash, y);
          } else {
            NodeTextBinds(x, p[0].hash, y, q[0].hash);
          }
        }
      } else {
        if a == b {
          assert p == [p[0]] + p[1..] && q == [q[0]] + q[1..];
        }
        ClimbBinds(h, a, p[1..], b, q[1..]);
      }
    }
  }

  lemma {:induction false} PathWidths(h: Hash, leaves: seq<Digest>, index: nat)
    requires Wide(h) && Widths(leaves) && index < |leaves|
    ensures StepWidths(Path(h, leaves, index))
    decreases |leaves|
  {
    if |leaves| > 1 {
      NextLevelWidths(h, leaves);
      PathWidths(h, NextLevel(h, leaves), index / 2);
    }
  }

  /** Soundness of verification: a proof with the generated position pattern that verifies
      carries the true leaf and the true siblings, or exhibits a collision. */
  lemma ProofBinds(h: Hash, leaves: seq<Digest>, index: nat, leaf: Digest, proof: seq<ProofStep>)
    requires Wide(h) && Widths(leaves) && index < |leaves|
    requires |leaf| == WIDTH && StepWidths(proof) && SamePositions(proof, Path(h, leaves, index))
    requires Climb(h, leaf, proof) == Root(h, leaves)
    ensures (leaf == leaves[index] && proof == Path(h, leaves, index))
            || var pair := FindProofCollision(h, leaf, proof, leaves[index], Path(h, leaves, index)); Collision(h, pair.0, pair.1)
  {
    ProofsVerify(h, leaves, index);
    PathWidths(h, leaves, index);
    if leaf != leaves[index] || proof != Path(h, leaves, index) {
      ClimbBinds(h, leaf, proof, leaves[index], Path(h, leaves, index));
    }
  }
}
