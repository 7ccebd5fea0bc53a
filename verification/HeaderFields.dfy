// The 80 bytes of a Bitcoin header and the fields the contract reads from them
// (wire.BlockHeader: version, previous block, Merkle root, time, bits, nonce).

module HeaderFields {
  import opened Wrappers
  import opened Int64
  import opened Bytes
  import opened Text
  import opened World
  import opened Mapping
  import opened Blocklist
  import Proof

  datatype BlockHeader = BlockHeader(
    version: Uint32,
    prevBlock: Hash,
    merkleRoot: Hash,
    timestamp: Uint32,
    bits: Uint32,
    nonce: Uint32
  )

  /** Four bytes, least significant first. */
  function LittleEndian(v: Uint32): (bs: Bytes)
    ensures |bs| == 4
  {
    [v % 256, v / 256 % 256, v / 65536 % 256, v / 16777216 % 256]
  }

  function HeaderBytes(h: BlockHeader): (raw: RawHeader)
  {
    LittleEndian(h.version) + h.prevBlock + h.merkleRoot
    + LittleEndian(h.timestamp) + LittleEndian(h.bits) + LittleEndian(h.nonce)
  }

  /** The contract reads the two hashes where a header has them, and hashes all of it. */
  lemma FieldsRead(w: Btc, h: BlockHeader)
    ensures HeaderRoot(HeaderBytes(h)) == h.merkleRoot
    ensures PrevBlock(HeaderBytes(h)) == h.prevBlock
    ensures BlockHash(w, HeaderBytes(h)) == w.doubleHash(HeaderBytes(h))
  {
    var raw := HeaderBytes(h);
    hide HeaderBytes, LittleEndian;
    HeaderLayout(h);
    var padded := raw + seq(80, i => 0);
    assert padded[36..68] == raw[36..68];
    assert raw[..HEADER_SIZE] == raw;
  }

  lemma HeaderLayout(h: BlockHeader)
    ensures HeaderBytes(h)[4..36] == h.prevBlock && HeaderBytes(h)[36..68] == h.merkleRoot
  {
    hide LittleEndian;
  }

  /** Appending header b to header a takes exactly that b's previous-block field is a's hash. */
  lemma LinkedFields(w: Btc, a: BlockHeader, b: BlockHeader)
    ensures Linked(w, HeaderBytes(a), HeaderBytes(b)) <==> b.prevBlock == w.doubleHash(HeaderBytes(a))
  {
    FieldsRead(w, a);
    FieldsRead(w, b);
    hide HeaderBytes, PrevBlock, BlockHash;
  }

  /** When a deposit request is accepted. Under a stored header whose root is the Merkle root of the block's
      transaction hashes, a request with a proof of full height and an index below their number is
      accepted exactly when the transaction is the one at that index and the proof its authentic branch -
      no two of the strings hashed having the same hash. */
  lemma AcceptedIsLeaf(w: Btc, headers: Headers, req: MapRequest, h: BlockHeader, leaves: seq<Hash>, proof: seq<Hash>)
    requires req.blockHeight in headers && headers[req.blockHeight] == HeaderBytes(h)
    requires leaves != [] && h.merkleRoot == Proof.MerkleRoot(w.doubleHash, leaves)
    requires req.merkleProofHex == EncodeHex(Proof.Concatenated(proof))
    requires |proof| == Proof.Height(|leaves|) && req.txIndex < |leaves|
    requires var tx := w.doubleHash(w.serialize(req.tx));
      Proof.CollisionFree(w.doubleHash,
        Proof.TreeInputs(w.doubleHash, leaves) + Proof.ClimbInputs(w.doubleHash, tx, req.txIndex, proof))
    ensures VerifyTransaction(w, headers, req) == None <==>
      && w.doubleHash(w.serialize(req.tx)) == leaves[req.txIndex]
      && proof == Proof.Branch(w.doubleHash, leaves, req.txIndex)
  {
    var tx := w.doubleHash(w.serialize(req.tx));
    assert TxHash(w, req.tx) == tx;
    FieldsRead(w, h);
    Proof.ProofRoundTrip(proof);
    Proof.VerificationExact(w.doubleHash, leaves, tx, req.txIndex, proof);
    hide HeaderBytes, HeaderRoot, EncodeHex, Proof.ProofOfHex, Proof.Climb, Proof.MerkleRoot;
    hide Proof.Branch, Proof.CollisionFree;
  }
}
