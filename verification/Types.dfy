// The contract's data types (types.go, signing_data.go).

module Types {
  import opened Wrappers
  import opened Int64
  import opened Bytes
  import opened Text

  /** A full UTXO record. `tag` is None for Go's nil slice: a nil tag and an empty tag
      give different witness scripts, so the model keeps them apart. */
  datatype Utxo = Utxo(txId: TxId, vout: Uint32, amount: Int64, pkScript: Bytes, tag: Option<Bytes>) {
    function TagBytes(): Bytes {
      if tag.Some? then tag.value else []
    }

    /** The record as it comes back from the store: a nil tag has become an empty one. */
    function Stored(): Utxo {
      this.(tag := Some(TagBytes()))
    }

    /** One length byte each is enough for the script and the tag. */
    predicate Storable() {
      |pkScript| <= 255 && |TagBytes()| <= 255
    }
  }

  /** A record as the store can hold it. */
  type StoredUtxo = u: Utxo | u.Storable() && u.tag.Some? witness Utxo(ZeroTxId(), 0, 0, [], Some([]))

  datatype UtxoRegistryEntry = UtxoRegistryEntry(id: Byte, amount: Int64)

  type UtxoRegistry = seq<UtxoRegistryEntry>

  type TxSpendsRegistry = seq<TxId>

  datatype SystemSupply = SystemSupply(activeSupply: Int64, userSupply: Int64, feeSupply: Int64, baseFeeRate: Int64)

  datatype UnsignedSigHash = UnsignedSigHash(index: Uint32, sigHash: Bytes, witnessScript: Bytes)

  datatype SigningData = SigningData(tx: Bytes, unsignedSigHashes: seq<UnsignedSigHash>)

  // IDs 0-63 are the unconfirmed pool, 64-255 the confirmed pool (constants.go).
  const UTXO_CONFIRMED_POOL_START: nat := 64
  const UTXO_POOL_END: nat := 256
}
