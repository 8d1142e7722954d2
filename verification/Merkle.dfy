/**
  The padded keccak256 Merkle tree of shared/src/at_shared/merkle.py.

  The methods keep the loops of the source and are proved equal to the recursive
  functions Root, Proof and Fold; the lemmas about those functions are the results:
  every generated proof verifies, its shape is fixed by the index, and an accepted proof
  binds the leaf to its position unless a colliding pair of inputs is produced.
 */
module Merkle {
  import opened Wrappers
  import opened Hashing

  datatype Step = Step(sibling: Bytes, siblingIsRight: bool)

  datatype MerkleError =
    | EmptyBatch
    | BadLeafLength
    | IndexOutOfRange(index: int)

  // ---------------------------------------------------------------- the tree

  function Padded(n: nat): nat { n + n % 2 }

  /** Node i of a level whose odd trailing node is duplicated. */
  function At(level: seq<Digest>, i: nat): Digest
    requires i < Padded(|level|)
  {
    if i < |level| then level[i] else level[|level| - 1]
  }

  function Pair(level: seq<Digest>, i: nat): Bytes
    requires 2 * i < |level|
  {
    At(level, 2 * i) + At(level, 2 * i + 1)
  }

  function NextLevel(k: Keccak, level: seq<Digest>): seq<Digest> {
    seq<Digest>((|level| + 1) / 2, i requires 0 <= i < (|level| + 1) / 2 => k(Pair(level, i)))
  }

  function Root(k: Keccak, level: seq<Digest>): Digest
    requires |level| > 0
    decreases |level|
  {
    if |level| == 1 then level[0] else Root(k, NextLevel(k, level))
  }

  function Sibling(idx: nat): nat { if idx % 2 == 0 then idx + 1 else idx - 1 }

  function Proof(k: Keccak, level: seq<Digest>, idx: nat): seq<Step>
    requires idx < |level|
    decreases |level|
  {
    if |level| == 1 then []
    else [Step(At(level, Sibling(idx)), idx % 2 == 0)] + Proof(k, NextLevel(k, level), idx / 2)
  }

  function Combine(digest: Bytes, step: Step): Bytes {
    if step.siblingIsRight then digest + step.sibling else step.sibling + digest
  }

  function Fold(k: Keccak, digest: Bytes, proof: seq<Step>): Bytes
    decreases |proof|
  {
    if proof == [] then digest else Fold(k, k(Combine(digest, proof[0])), proof[1..])
  }

  predicate Accepts(k: Keccak, leaf: Bytes, proof: seq<Step>, root: Bytes) {
    Fold(k, leaf, proof) == root
  }

  /** Number of folds from n leaves to the root. */
  function Height(n: nat): nat
    requires n > 0
  {
    if n == 1 then 0 else 1 + Height((n + 1) / 2)
  }

  function Pow2(e: nat): (p: nat)
    ensures p > 0
  {
    if e == 0 then 1 else 2 * Pow2(e - 1)
  }

  /** The input the root of two or more leaves is the hash of. */
  function TopPair(k: Keccak, leaves: seq<Digest>): Bytes
    requires |leaves| > 1
    decreases |leaves|
  {
    if |leaves| == 2 then Pair(leaves, 0) else TopPair(k, NextLevel(k, leaves))
  }

  lemma {:induction false} RootIsHashOfTopPair(k: Keccak, leaves: seq<Digest>)
    requires |leaves| > 1
    ensures Root(k, leaves) == k(TopPair(k, leaves))
    decreases |leaves|
  {
    if |leaves| > 2 {
      RootIsHashOfTopPair(k, NextLevel(k, leaves));
    }
  }

  // ------------------------------------------------------ the source's loops

  function Validate(leaves: seq<Bytes>): (r: Result<seq<Digest>, MerkleError>)
    ensures r.Ok? <==> leaves != [] && forall leaf <- leaves :: |leaf| == DIGEST_BYTES
    ensures r.Ok? ==> r.value == leaves
    ensures r.Err? ==> r.error == if leaves == [] then EmptyBatch else BadLeafLength
  {
    if leaves == [] then Err(EmptyBatch)
    else if exists leaf <- leaves :: |leaf| != DIGEST_BYTES then Err(BadLeafLength)
    else
      assert forall i | 0 <= i < |leaves| :: leaves[i] in leaves;
      Ok(leaves)
  }

  /** One pass of the source's level comprehension over an even-length level. */
  method HashPairs(k: Keccak, level: seq<Digest>) returns (next: seq<Digest>)
    ensures next == NextLevel(k, level)
  {
    var padded := level;
    if |level| % 2 == 1 {
      padded := padded + [padded[|padded| - 1]];
    }
    next := [];
    var i := 0;
    while i < |padded|
      invariant 0 <= i <= |padded| && i % 2 == 0
      invariant |next| == i / 2
      invariant forall j | 0 <= j < |next| :: next[j] == k(Pair(level, j))
    {
      var pair: Bytes := padded[i];
      pair := pair + padded[i + 1];
      assert pair == Pair(level, i / 2);
      next := next + [k(pair)];
      i := i + 2;
    }
  }

  method MerkleRoot(k: Keccak, leaves: seq<Bytes>) returns (r: Result<Digest, MerkleError>)
    ensures r.Ok? <==> Validate(leaves).Ok?
    ensures r.Ok? ==> r.value == Root(k, leaves)
    ensures r.Err? ==> r.error == Validate(leaves).error
  {
    var checked := Validate(leaves);
    if checked.Err? {
      return Err(checked.error);
    }
    var level := checked.value;
    while |level| > 1
      invariant |level| > 0
      invariant Root(k, level) == Root(k, checked.value)
      decreases |level|
    {
      level := HashPairs(k, level);
    }
    return Ok(level[0]);
  }

  method MerkleProof(k: Keccak, leaves: seq<Bytes>, index: int) returns (r: Result<seq<Step>, MerkleError>)
    ensures r.Ok? <==> Validate(leaves).Ok? && 0 <= index < |leaves|
    ensures r.Ok? ==> r.value == Proof(k, leaves, index)
    ensures r.Err? ==>
      r.error == if Validate(leaves).Err? then Validate(leaves).error else IndexOutOfRange(index)
  {
    var checked := Validate(leaves);
    if checked.Err? {
      return Err(checked.error);
    }
    if index < 0 || index >= |leaves| {
      return Err(IndexOutOfRange(index));
    }
    var level := checked.value;
    var steps: seq<Step> := [];
    var idx: nat := index;
    while |level| > 1
      invariant |level| > 0 && idx < |level|
      invariant steps + Proof(k, level, idx) == Proof(k, checked.value, index)
      decreases |level|
    {
      var step := Step(At(level, Sibling(idx)), idx % 2 == 0);
      assert steps + Proof(k, level, idx)
          == (steps + [step]) + Proof(k, NextLevel(k, level), idx / 2);
      steps := steps + [step];
      level := HashPairs(k, level);
      idx := idx / 2;
    }
    assert steps + [] == steps;
    return Ok(steps);
  }

  /** The index is halved along with the digest and decides nothing. */
  method VerifyProof(k: Keccak, leaf: Bytes, proof: seq<Step>, root: Bytes, index: int) returns (ok: bool)
    ensures ok <==> Accepts(k, leaf, proof, root)
  {
    var digest, idx := leaf, index;
    for i := 0 to |proof|
      invariant Fold(k, digest, proof[i..]) == Fold(k, leaf, proof)
    {
      assert proof[i..][1..] == proof[i + 1..];
      digest := k(Combine(digest, proof[i]));
      idx := idx / 2;
    }
    ok := digest == root;
  }

  // ------------------------------------------------------------ completeness

  /** Every generated proof verifies against the computed root. */
  lemma {:induction false} GeneratedProofVerifies(k: Keccak, leaves: seq<Digest>, index: nat)
    requires index < |leaves|
    ensures Accepts(k, leaves[index], Proof(k, leaves, index), Root(k, leaves))
    decreases |leaves|
  {
    if |leaves| > 1 {
      var next := NextLevel(k, leaves);
      var step := Step(At(leaves, Sibling(index)), index % 2 == 0);
      assert Proof(k, leaves, index)[0] == step;
      assert Proof(k, leaves, index)[1..] == Proof(k, next, index / 2);
      assert Combine(leaves[index], step) == Pair(leaves, index / 2);
      GeneratedProofVerifies(k, next, index / 2);
    }
  }

  /** The height is ceil(log2 n). */
  lemma {:induction false} HeightIsCeilLog2(n: nat)
    requires n > 0
    ensures n <= Pow2(Height(n))
    ensures n > 1 ==> Pow2(Height(n) - 1) < n
  {
    if n > 1 {
      var half := (n + 1) / 2;
      HeightIsCeilLog2(half);
      if half > 1 {
        assert Pow2(Height(n) - 1) == 2 * Pow2(Height(half) - 1);
        assert Pow2(Height(half) - 1) + 1 <= half;
      }
    }
  }

  /** The number whose bits, lowest first, are the steps taken from a right child. */
  function Spelled(proof: seq<Step>): nat {
    if proof == [] then 0
    else (if proof[0].siblingIsRight then 0 else 1) + 2 * Spelled(proof[1..])
  }

  /**
    A generated proof has the tree's height and its direction flags are the bits of the
    index from the lowest, a right sibling exactly where the bit is 0.
   */
  lemma {:induction false} ProofShape(k: Keccak, leaves: seq<Digest>, index: nat)
    requires index < |leaves|
    ensures |Proof(k, leaves, index)| == Height(|leaves|)
    ensures Spelled(Proof(k, leaves, index)) == index
    decreases |leaves|
  {
    if |leaves| > 1 {
      ProofShape(k, NextLevel(k, leaves), index / 2);
    }
  }

  // ----------------------------------------------------------------- binding

  /**
    The leaf a path leads to. A path that turns into the duplicated padding of an odd
    level is clamped to that level's last node before it descends further.
   */
  function Position(n: nat, proof: seq<Step>): (p: nat)
    requires n > 0
    requires |proof| == Height(n)
    ensures p < n
    decreases n
  {
    if n == 1 then 0
    else
      var child := 2 * Position((n + 1) / 2, proof[1..]) + if proof[0].siblingIsRight then 0 else 1;
      if child < n then child else n - 1
  }

  /** A path that spells an index inside the batch is not clamped. */
  lemma {:induction false} PositionIsSpelled(n: nat, proof: seq<Step>)
    requires n > 0
    requires |proof| == Height(n)
    requires Spelled(proof) < n
    ensures Position(n, proof) == Spelled(proof)
    decreases n
  {
    if n > 1 {
      PositionIsSpelled((n + 1) / 2, proof[1..]);
    }
  }

  /**
    The pair of hash inputs an accepted proof of a foreign leaf yields: the first level,
    from the root down, where equal digests have different preimages.
   */
  function Forgery(k: Keccak, level: seq<Digest>, leaf: Bytes, proof: seq<Step>): (Bytes, Bytes)
    requires |level| > 0
    requires |proof| == Height(|level|)
    decreases |level|
  {
    if |level| == 1 then (leaf, leaf)
    else
      var next := NextLevel(k, level);
      var input := Combine(leaf, proof[0]);
      var p := Position(|next|, proof[1..]);
      if k(input) == next[p] then (input, Pair(level, p))
      else Forgery(k, next, k(input), proof[1..])
  }

  /** A digest accepted with a proof of the level's height is the one the path leads to, or Forgery is a collision. */
  lemma {:induction false} AcceptedDigestIsInLevel(k: Keccak, level: seq<Digest>, digest: Digest, proof: seq<Step>)
    requires |level| > 0
    requires |proof| == Height(|level|)
    requires Accepts(k, digest, proof, Root(k, level))
    ensures digest == level[Position(|level|, proof)] || IsCollision(k, Forgery(k, level, digest, proof))
    decreases |level|, 1
  {
    hide Forgery, Fold, Root;
    if |level| == 1 {
      OneLeafIsItsRoot(k, level, digest, proof);
    } else {
      FirstInputIsBound(k, level, digest, proof);
      var p := Position((|level| + 1) / 2, proof[1..]);
      if Combine(digest, proof[0]) == Pair(level, p) {
        SameHalf(digest, proof[0], At(level, 2 * p), At(level, 2 * p + 1));
      }
    }
  }

  /**
    Binding, whatever the length of the leaf and of the sibling hashes: what an accepted proof of
    the tree's height hashes first is the pair of nodes its path leads to, or Forgery is a collision.
   */
  lemma {:induction false} FirstInputIsBound(k: Keccak, level: seq<Digest>, leaf: Bytes, proof: seq<Step>)
    requires |level| > 1
    requires |proof| == Height(|level|)
    requires Accepts(k, leaf, proof, Root(k, level))
    ensures Combine(leaf, proof[0]) == Pair(level, Position((|level| + 1) / 2, proof[1..]))
         || IsCollision(k, Forgery(k, level, leaf, proof))
    decreases |level|, 0
  {
    var next := NextLevel(k, level);
    AcceptedDigestIsInLevel(k, next, k(Combine(leaf, proof[0])), proof[1..]);
  }

  /**
    A leaf accepted with a proof of the tree's height is the leaf at the position the path leads
    to exactly if it has 32 bytes, or Forgery is a collision.
   */
  lemma AcceptedLeafIsInBatch(k: Keccak, level: seq<Digest>, leaf: Bytes, proof: seq<Step>)
    requires |level| > 0
    requires |proof| == Height(|level|)
    requires Accepts(k, leaf, proof, Root(k, level))
    ensures (leaf == level[Position(|level|, proof)] <==> |leaf| == DIGEST_BYTES)
         || IsCollision(k, Forgery(k, level, leaf, proof))
  {
    hide Forgery, Fold, Root;
    if |leaf| == DIGEST_BYTES {
      AcceptedDigestIsInLevel(k, level, leaf, proof);
    } else if |level| == 1 {
      OneLeafIsItsRoot(k, level, leaf, proof);
    }
  }

  lemma OneLeafIsItsRoot(k: Keccak, level: seq<Digest>, leaf: Bytes, proof: seq<Step>)
    requires |level| == 1 && proof == []
    ensures Accepts(k, leaf, proof, Root(k, level)) <==> leaf == level[0]
  {
  }

  lemma SameHalf(leaf: Bytes, step: Step, left: Bytes, right: Bytes)
    requires |leaf| == |left| == |right| == DIGEST_BYTES
    requires Combine(leaf, step) == left + right
    ensures leaf == if step.siblingIsRight then left else right
  {
    var both := left + right;
    if step.siblingIsRight {
      assert leaf == Combine(leaf, step)[..DIGEST_BYTES] == both[..DIGEST_BYTES] == left;
    } else {
      assert |step.sibling| == DIGEST_BYTES;
      assert leaf == Combine(leaf, step)[DIGEST_BYTES..] == both[DIGEST_BYTES..] == right;
    }
  }

  // ------------------------------------------------- interior nodes as leaves

  /** The level reached from the leaves after d folds. */
  function LevelAt(k: Keccak, leaves: seq<Digest>, d: nat): (level: seq<Digest>)
    requires |leaves| > 0
    requires d <= Height(|leaves|)
    ensures |level| > 0
    ensures Height(|level|) == Height(|leaves|) - d
    decreases d
  {
    if d == 0 then leaves else LevelAt(k, NextLevel(k, leaves), d - 1)
  }

  lemma {:induction false} LevelsShareTheRoot(k: Keccak, leaves: seq<Digest>, d: nat)
    requires |leaves| > 0
    requires d <= Height(|leaves|)
    ensures Root(k, LevelAt(k, leaves, d)) == Root(k, leaves)
    decreases d
  {
    if d > 0 {
      LevelsShareTheRoot(k, NextLevel(k, leaves), d - 1);
    }
  }

  lemma {:induction false} FoldSplits(k: Keccak, digest: Bytes, proof: seq<Step>, n: nat)
    requires n <= |proof|
    ensures Fold(k, digest, proof) == Fold(k, Fold(k, digest, proof[..n]), proof[n..])
    ensures n > 0 ==> |Fold(k, digest, proof[..n])| == DIGEST_BYTES
    decreases n
  {
    if n > 0 {
      var folded := k(Combine(digest, proof[0]));
      FoldSplits(k, folded, proof[1..], n - 1);
      assert proof[..n][1..] == proof[1..][..n - 1] && proof[1..][n - 1..] == proof[n..];
    }
  }

  /** The steps of a proof that come before it reaches the leaves. */
  function Excess(leaves: seq<Digest>, proof: seq<Step>): nat
    requires |leaves| > 0
  {
    if |proof| > Height(|leaves|) then |proof| - Height(|leaves|) else 0
  }

  /** The level of the tree that the rest of the proof starts from: the leaves, unless it is too short. */
  function BoundLevel(k: Keccak, leaves: seq<Digest>, proof: seq<Step>): (level: seq<Digest>)
    requires |leaves| > 0
    ensures |level| > 0 && Height(|level|) == |proof| - Excess(leaves, proof)
  {
    LevelAt(k, leaves, Height(|leaves|) - (|proof| - Excess(leaves, proof)))
  }

  /**
    The verifier does not check the length of the proof. Whatever its length, an accepted proof
    binds what its excess steps fold the leaf to: a short one to a node of the level at its depth,
    any other to a leaf.
   */
  lemma AcceptedProofBindsNode(k: Keccak, leaves: seq<Digest>, leaf: Bytes, proof: seq<Step>)
    requires |leaves| > 0
    requires Accepts(k, leaf, proof, Root(k, leaves))
    ensures var n, level := Excess(leaves, proof), BoundLevel(k, leaves, proof);
            var node := Fold(k, leaf, proof[..n]);
            || (node == level[Position(|level|, proof[n..])] <==> |node| == DIGEST_BYTES)
            || IsCollision(k, Forgery(k, level, node, proof[n..]))
    ensures Excess(leaves, proof) > 0 ==> |Fold(k, leaf, proof[..Excess(leaves, proof)])| == DIGEST_BYTES
  {
    var n := Excess(leaves, proof);
    FoldSplits(k, leaf, proof, n);
    LevelsShareTheRoot(k, leaves, Height(|leaves|) - (|proof| - n));
    AcceptedLeafIsInBatch(k, BoundLevel(k, leaves, proof), Fold(k, leaf, proof[..n]), proof[n..]);
  }

  /** Conversely every interior node is accepted, so a proof must not be shorter than the tree. */
  lemma InteriorNodeIsAccepted(k: Keccak, leaves: seq<Digest>, d: nat, index: nat)
    requires |leaves| > 0
    requires d <= Height(|leaves|)
    requires index < |LevelAt(k, leaves, d)|
    ensures var level := LevelAt(k, leaves, d);
            Accepts(k, level[index], Proof(k, level, index), Root(k, leaves))
  {
    LevelsShareTheRoot(k, leaves, d);
    GeneratedProofVerifies(k, LevelAt(k, leaves, d), index);
  }

  /** Nor longer: the first n bytes of what a leaf is the hash of are accepted as a leaf, for every n. */
  lemma PreimageOfLeafIsAccepted(k: Keccak, leaves: seq<Digest>, index: nat, event: Bytes, n: nat)
    requires index < |leaves| && leaves[index] == k(event) && n <= |event|
    ensures Accepts(k, event[..n], [Step(event[n..], true)] + Proof(k, leaves, index), Root(k, leaves))
  {
    var proof := [Step(event[n..], true)] + Proof(k, leaves, index);
    assert Combine(event[..n], proof[0]) == event;
    assert proof[1..] == Proof(k, leaves, index);
    GeneratedProofVerifies(k, leaves, index);
  }

  /** And the leaf must have 32 bytes: any other cut through a pair of leaves is accepted too. */
  lemma AnyCutOfPairIsAccepted(k: Keccak, leaves: seq<Digest>, index: nat, n: nat)
    requires |leaves| > 1 && index < |leaves| && n <= 2 * DIGEST_BYTES
    ensures var pair := Pair(leaves, index / 2);
            Accepts(k, pair[..n], [Step(pair[n..], true)] + Proof(k, leaves, index)[1..], Root(k, leaves))
  {
    var next := NextLevel(k, leaves);
    var pair := Pair(leaves, index / 2);
    PreimageOfLeafIsAccepted(k, next, index / 2, pair, n);
    assert Proof(k, leaves, index)[1..] == Proof(k, next, index / 2);
  }

  // ------------------------------------------------------- one root, one batch

  function FirstDifference(a: seq<Digest>, b: seq<Digest>): (i: nat)
    requires |a| == |b| && a != b
    ensures i < |a| && a[i] != b[i]
    decreases |a|
  {
    if a[0] != b[0] then 0
    else
      assert a == [a[0]] + a[1..] && b == [b[0]] + b[1..];
      1 + FirstDifference(a[1..], b[1..])
  }

  function RootCollision(k: Keccak, a: seq<Digest>, b: seq<Digest>): (Bytes, Bytes)
    requires |a| == |b| > 0 && a != b
    decreases |a|
  {
    if |a| == 1 then (a[0], b[0])
    else
      var na, nb := NextLevel(k, a), NextLevel(k, b);
      if na != nb then RootCollision(k, na, nb)
      else
        var i := FirstDifference(a, b) / 2;
        (Pair(a, i), Pair(b, i))
  }

  lemma NodeFromPair(level: seq<Digest>, i: nat)
    requires i < |level|
    ensures level[i] == if i % 2 == 0 then Pair(level, i / 2)[..DIGEST_BYTES] else Pair(level, i / 2)[DIGEST_BYTES..]
  {
  }

  /** Two different batches of one length with the same root exhibit a collision. */
  lemma {:induction false} RootBindsBatch(k: Keccak, a: seq<Digest>, b: seq<Digest>)
    requires |a| == |b| > 0 && a != b
    requires Root(k, a) == Root(k, b)
    ensures IsCollision(k, RootCollision(k, a, b))
    decreases |a|
  {
    if |a| > 1 {
      var na, nb := NextLevel(k, a), NextLevel(k, b);
      if na != nb {
        RootBindsBatch(k, na, nb);
      } else {
        var d := FirstDifference(a, b);
        var i := d / 2;
        assert k(Pair(a, i)) == na[i] == nb[i] == k(Pair(b, i));
        NodeFromPair(a, d);
        NodeFromPair(b, d);
      }
    }
  }

  lemma PaddingIsInvisible(k: Keccak, leaves: seq<Digest>, last: Digest)
    requires |leaves| % 2 == 1 && last == leaves[|leaves| - 1]
    ensures NextLevel(k, leaves + [last]) == NextLevel(k, leaves)
  {
    var longer := leaves + [last];
    assert |NextLevel(k, longer)| == |NextLevel(k, leaves)| == (|leaves| + 1) / 2;
    forall i | 0 <= i < (|leaves| + 1) / 2
      ensures NextLevel(k, longer)[i] == NextLevel(k, leaves)[i]
    {
      assert At(longer, 2 * i) == At(leaves, 2 * i);
      assert At(longer, 2 * i + 1) == At(leaves, 2 * i + 1);
      assert Pair(longer, i) == Pair(leaves, i);
    }
  }

  /** Lengths must agree: repeating the last leaf of an odd batch keeps the root. */
  lemma DuplicatePaddingKeepsRoot(k: Keccak, leaves: seq<Digest>, last: Digest)
    requires |leaves| > 1 && |leaves| % 2 == 1 && last == leaves[|leaves| - 1]
    ensures Root(k, leaves + [last]) == Root(k, leaves)
  {
    PaddingIsInvisible(k, leaves, last);
  }
}
