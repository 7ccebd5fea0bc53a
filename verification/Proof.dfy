// Merkle branch verification (proof.go).

module Proof {
  import opened Wrappers
  import opened Int64
  import opened Bytes
  import opened Text

  // ------------------------------------------------------------ the verifier

  /** The hash of two concatenated nodes under a 64-byte hash function. */
  function Pair(H: Bytes -> Hash, left: Hash, right: Hash): Hash {
    H(Join(left, right))
  }

  /** The root that a proof leads to from a hash at a position. */
  function Climb(H: Bytes -> Hash, current: Hash, index: nat, proof: seq<Hash>): Hash
    decreases |proof|
  {
    if proof == [] then current else
    var up := if index % 2 == 0 then Pair(H, current, proof[0]) else Pair(H, proof[0], current);
    Climb(H, up, index / 2, proof[1..])
  }

  method VerifyMerkleProof(H: Bytes -> Hash, txHash: Hash, txIndex: Uint32, proof: seq<Hash>, merkleRoot: Hash)
    returns (ok: bool)
    ensures ok <==> Climb(H, txHash, txIndex, proof) == merkleRoot
  {
    var currentHash, index := txHash, txIndex;
    var combined := MakeBuffer(64);
    for i := 0 to |proof|
      invariant Climb(H, txHash, txIndex, proof) == Climb(H, currentHash, index, proof[i..])
    {
      var siblingHash := proof[i];
      if index % 2 == 0 {
        CopyInto(combined, 0, currentHash);
        CopyInto(combined, 32, siblingHash);
        assert combined[..] == Join(currentHash, siblingHash);
      } else {
        CopyInto(combined, 0, siblingHash);
        CopyInto(combined, 32, currentHash);
        assert combined[..] == Join(siblingHash, currentHash);
      }
      currentHash := H(combined[..]);
      index := index / 2;
      assert proof[i..][1..] == proof[i + 1..];
    }
    ok := currentHash == merkleRoot;
  }

  /** Accepts exactly the hex of a whole number of hashes and returns them in order. */
  method MerkleProofFromHex(proofHex: string) returns (r: Result<seq<Hash>>)
    ensures r == ProofOfHex(proofHex)
  {
    var decoded := DecodeHex(proofHex);
    if decoded.None? {
      return Err(ErrInvalidHex);
    }
    var proofBytes := decoded.value;
    if |proofBytes| % 32 != 0 {
      return Err(ErrInput);
    }
    var proof := new Hash[|proofBytes| / 32](i => ZeroHash());
    var i := 0;
    while i < |proofBytes|
      invariant 0 <= i <= |proofBytes| && i % 32 == 0
      invariant forall j :: 0 <= j < i / 32 ==> proof[j] == proofBytes[32 * j..32 * j + 32]
    {
      proof[i / 32] := proofBytes[i..i + 32];
      i := i + 32;
    }
    assert proof[..] == ProofOfHex(proofHex).value;
    r := Ok(proof[..]);
  }

  function ZeroHash(): Hash {
    seq(32, i => 0)
  }

  function ProofOfHex(proofHex: string): Result<seq<Hash>> {
    var decoded := DecodeHex(proofHex);
    if decoded.None? then Err(ErrInvalidHex)
    else if |decoded.value| % 32 != 0 then Err(ErrInput)
    else Ok(seq(|decoded.value| / 32, i requires 0 <= i < |decoded.value| / 32 => decoded.value[32 * i..32 * i + 32]))
  }

  function Concatenated(hashes: seq<Hash>): (bs: Bytes)
    ensures |bs| == 32 * |hashes|
  {
    if hashes == [] then [] else Concatenated(hashes[..|hashes| - 1]) + hashes[|hashes| - 1]
  }

  lemma {:induction false} ConcatenatedAt(hashes: seq<Hash>, i: nat)
    requires i < |hashes|
    ensures Concatenated(hashes)[32 * i..32 * i + 32] == hashes[i]
  {
    var front := hashes[..|hashes| - 1];
    if i < |hashes| - 1 {
      ConcatenatedAt(front, i);
      assert Concatenated(hashes)[32 * i..32 * i + 32] == Concatenated(front)[32 * i..32 * i + 32];
    }
  }

  /** The hex of hashes one after the other is read back as those hashes, in order. */
  lemma ProofRoundTrip(hashes: seq<Hash>)
    ensures ProofOfHex(EncodeHex(Concatenated(hashes))) == Ok(hashes)
  {
    hide EncodeHex, DecodeHex, Concatenated;
    DecodeEncodedHex(Concatenated(hashes));
    forall i | 0 <= i < |hashes| ensures Concatenated(hashes)[32 * i..32 * i + 32] == hashes[i] {
      ConcatenatedAt(hashes, i);
    }
    assert ProofOfHex(EncodeHex(Concatenated(hashes))).value == hashes;
  }

  // ------------------------------------- Bitcoin's tree: an odd level repeats its last node

  /** Position of the node's sibling; the last node of an odd level is its own. */
  function Sibling(n: nat, i: nat): (s: nat)
    requires i < n
    ensures s < n
  {
    if i % 2 == 1 then i - 1 else if i + 1 < n then i + 1 else i
  }

  function LevelUp(H: Bytes -> Hash, nodes: seq<Hash>): (up: seq<Hash>)
    requires nodes != []
    ensures |up| == (|nodes| + 1) / 2
  {
    seq((|nodes| + 1) / 2, i requires 0 <= i < (|nodes| + 1) / 2 =>
      Pair(H, nodes[2 * i], nodes[Sibling(|nodes|, 2 * i)]))
  }

  function MerkleRoot(H: Bytes -> Hash, nodes: seq<Hash>): Hash
    requires nodes != []
    decreases |nodes|
  {
    if |nodes| == 1 then nodes[0] else MerkleRoot(H, LevelUp(H, nodes))
  }

  function Height(n: nat): nat
    requires n > 0
  {
    if n == 1 then 0 else 1 + Height((n + 1) / 2)
  }

  /** The siblings on the way from leaf i to the root. */
  function Branch(H: Bytes -> Hash, nodes: seq<Hash>, i: nat): (proof: seq<Hash>)
    requires i < |nodes|
    ensures |proof| == Height(|nodes|)
    decreases |nodes|
  {
    if |nodes| == 1 then [] else [nodes[Sibling(|nodes|, i)]] + Branch(H, LevelUp(H, nodes), i / 2)
  }

  /** The nodes k levels above the leaves. */
  function Level(H: Bytes -> Hash, nodes: seq<Hash>, k: nat): (level: seq<Hash>)
    requires nodes != [] && k <= Height(|nodes|)
    ensures level != [] && Height(|level|) == Height(|nodes|) - k
    ensures MerkleRoot(H, level) == MerkleRoot(H, nodes)
    decreases k
  {
    if k == 0 then nodes else Level(H, LevelUp(H, nodes), k - 1)
  }

  lemma ParentOf(H: Bytes -> Hash, nodes: seq<Hash>, i: nat)
    requires |nodes| > 1 && i < |nodes|
    ensures var s := nodes[Sibling(|nodes|, i)];
      LevelUp(H, nodes)[i / 2] == if i % 2 == 0 then Pair(H, nodes[i], s) else Pair(H, s, nodes[i])
  {
  }

  /** The authentic branch of every leaf verifies. */
  lemma {:induction false} AuthenticBranchVerifies(H: Bytes -> Hash, nodes: seq<Hash>, i: nat)
    requires i < |nodes|
    ensures Climb(H, nodes[i], i, Branch(H, nodes, i)) == MerkleRoot(H, nodes)
    decreases |nodes|
  {
    if |nodes| > 1 {
      ParentOf(H, nodes, i);
      AuthenticBranchVerifies(H, LevelUp(H, nodes), i / 2);
      assert Branch(H, nodes, i)[1..] == Branch(H, LevelUp(H, nodes), i / 2);
    }
  }

  // SHA-256 cannot be injective on 64-byte strings, so soundness is stated for the strings
  // that are actually hashed: those of the authentic tree and those of the climb.

  ghost function LevelInputs(nodes: seq<Hash>): set<Bytes> {
    set i | 0 <= i < (|nodes| + 1) / 2 :: Join(nodes[2 * i], nodes[Sibling(|nodes|, 2 * i)])
  }

  ghost function TreeInputs(H: Bytes -> Hash, nodes: seq<Hash>): set<Bytes>
    requires nodes != []
    decreases |nodes|
  {
    if |nodes| == 1 then {} else LevelInputs(nodes) + TreeInputs(H, LevelUp(H, nodes))
  }

  ghost function ClimbInputs(H: Bytes -> Hash, current: Hash, index: nat, proof: seq<Hash>): set<Bytes>
    decreases |proof|
  {
    if proof == [] then {} else
    var joined := if index % 2 == 0 then Join(current, proof[0]) else Join(proof[0], current);
    {joined} + ClimbInputs(H, H(joined), index / 2, proof[1..])
  }

  /** No two of these strings have the same hash. */
  ghost predicate CollisionFree(H: Bytes -> Hash, inputs: set<Bytes>) {
    forall a, b :: a in inputs && b in inputs && H(a) == H(b) ==> a == b
  }

  lemma CollisionFreePart(H: Bytes -> Hash, part: set<Bytes>, inputs: set<Bytes>)
    requires part <= inputs && CollisionFree(H, inputs)
    ensures CollisionFree(H, part)
  {
  }

  lemma JoinInjective(a: Hash, b: Hash, c: Hash, d: Hash)
    requires Join(a, b) == Join(c, d)
    ensures a == c && b == d
  {
    var ab, cd := Join(a, b), Join(c, d);
    assert ab[..32] == a && ab[32..] == b;
    assert cd[..32] == c && cd[32..] == d;
  }

  /** A child of a known parent, with its sibling, is determined by the side it hashes in from. */
  lemma ChildOf(H: Bytes -> Hash, nodes: seq<Hash>, parent: nat, x: Hash, s: Hash, index: nat, joined: Bytes)
    returns (child: nat)
    requires |nodes| > 1 && parent < |LevelUp(H, nodes)|
    requires joined == if index % 2 == 0 then Join(x, s) else Join(s, x)
    requires LevelUp(H, nodes)[parent] == H(joined)
    requires CollisionFree(H, LevelInputs(nodes) + {joined})
    ensures child < |nodes| && nodes[child] == x
    ensures index < |nodes| && index / 2 == parent ==> child == index && s == nodes[Sibling(|nodes|, index)]
  {
    hide LevelUp, LevelInputs, Join, CollisionFree;
    var right := Sibling(|nodes|, 2 * parent);
    HashedPair(H, nodes, parent, joined);
    if index % 2 == 0 {
      JoinInjective(x, s, nodes[2 * parent], nodes[right]);
      child := 2 * parent;
    } else {
      JoinInjective(s, x, nodes[2 * parent], nodes[right]);
      child := right;
    }
  }

  /** Without collisions, what hashes to an inner node is the pair it was made from. */
  lemma HashedPair(H: Bytes -> Hash, nodes: seq<Hash>, parent: nat, joined: Bytes)
    requires |nodes| > 1 && parent < (|nodes| + 1) / 2
    requires LevelUp(H, nodes)[parent] == H(joined)
    requires CollisionFree(H, LevelInputs(nodes) + {joined})
    ensures joined == Join(nodes[2 * parent], nodes[Sibling(|nodes|, 2 * parent)])
  {
    hide Join, Sibling;
    assert Join(nodes[2 * parent], nodes[Sibling(|nodes|, 2 * parent)]) in LevelInputs(nodes);
  }

  /** A verifying proof as long as the tree is high proves a leaf (no collision among the strings
      hashed): leaf `index` itself, with its one authentic branch, when the index is below the leaf count. */
  lemma {:induction false} VerifiedIsLeaf(H: Bytes -> Hash, nodes: seq<Hash>, x: Hash, index: nat, proof: seq<Hash>)
    returns (leaf: nat)
    requires nodes != [] && |proof| == Height(|nodes|)
    requires Climb(H, x, index, proof) == MerkleRoot(H, nodes)
    requires CollisionFree(H, TreeInputs(H, nodes) + ClimbInputs(H, x, index, proof))
    ensures leaf < |nodes| && nodes[leaf] == x
    ensures index < |nodes| ==> leaf == index && proof == Branch(H, nodes, index)
    decreases |nodes|
  {
    hide LevelUp, Sibling, LevelInputs, Join, CollisionFree;
    if |nodes| == 1 {
      leaf := 0;
    } else {
      var s := proof[0];
      var joined := if index % 2 == 0 then Join(x, s) else Join(s, x);
      var hashed := TreeInputs(H, nodes) + ClimbInputs(H, x, index, proof);
      CollisionFreePart(H, LevelInputs(nodes) + {joined}, hashed);
      CollisionFreePart(H, TreeInputs(H, LevelUp(H, nodes)) + ClimbInputs(H, H(joined), index / 2, proof[1..]), hashed);
      var parent := VerifiedIsLeaf(H, LevelUp(H, nodes), H(joined), index / 2, proof[1..]);
      leaf := ChildOf(H, nodes, parent, x, s, index, joined);
      if index < |nodes| {
        assert proof == [s] + proof[1..];
      }
    }
  }

  /** For proofs of full height and positions below the leaf count, verification holds exactly
      for the leaf at that position with its authentic branch. */
  lemma VerificationExact(H: Bytes -> Hash, nodes: seq<Hash>, x: Hash, index: nat, proof: seq<Hash>)
    requires index < |nodes| && |proof| == Height(|nodes|)
    requires CollisionFree(H, TreeInputs(H, nodes) + ClimbInputs(H, x, index, proof))
    ensures Climb(H, x, index, proof) == MerkleRoot(H, nodes) <==> x == nodes[index] && proof == Branch(H, nodes, index)
  {
    if Climb(H, x, index, proof) == MerkleRoot(H, nodes) {
      var _ := VerifiedIsLeaf(H, nodes, x, index, proof);
    }
    AuthenticBranchVerifies(H, nodes, index);
  }

  /** The code does not look at the proof's length. With k siblings fewer than the height,
      what verifies is exactly a node k levels up, so the height premise above cannot go. */
  lemma ShortProofExact(H: Bytes -> Hash, nodes: seq<Hash>, k: nat, x: Hash, index: nat, proof: seq<Hash>)
    requires nodes != [] && k <= Height(|nodes|) && |proof| == Height(|nodes|) - k
    requires index < |Level(H, nodes, k)|
    requires CollisionFree(H, TreeInputs(H, Level(H, nodes, k)) + ClimbInputs(H, x, index, proof))
    ensures Climb(H, x, index, proof) == MerkleRoot(H, nodes)
       <==> x == Level(H, nodes, k)[index] && proof == Branch(H, Level(H, nodes, k), index)
  {
    VerificationExact(H, Level(H, nodes, k), x, index, proof);
  }

  /** What the tree is on small blocks: left before right, and an odd last node paired with itself. */
  lemma SmallTrees(H: Bytes -> Hash, a: Hash, b: Hash, c: Hash)
    ensures MerkleRoot(H, [a]) == a
    ensures MerkleRoot(H, [a, b]) == H(a + b)
    ensures MerkleRoot(H, [a, b, c]) == H(H(a + b) + H(c + c))
    ensures Climb(H, a, 0, [b]) == H(a + b) && Climb(H, a, 1, [b]) == H(b + a)
    ensures Climb(H, a, 2, [b, c]) == H(c + H(a + b))
  {
    var proof: seq<Hash> := [b, c];
    assert proof[1..] == [c] && [c][1..] == [];
    assert Climb(H, a, 2, proof) == Climb(H, Pair(H, a, b), 1, [c]);
    assert LevelUp(H, [a, b, c]) == [Pair(H, a, b), Pair(H, c, c)];
    assert MerkleRoot(H, [a, b, c]) == MerkleRoot(H, [Pair(H, a, b), Pair(H, c, c)]);
  }
}
