// What the contract sees but does not compute itself: the calling environment,
// Bitcoin transactions, and the btcd functions the model leaves uninterpreted.

module World {
  import opened Wrappers
  import opened Int64
  import opened Bytes
  import opened Text
  import opened Types
  import opened Keys

  datatype TxOut = TxOut(value: Int64, pkScript: Bytes)

  /** A transaction as the contract builds or reads it, witness data left out. */
  datatype MsgTx = MsgTx(txIn: seq<Outpoint>, txOut: seq<TxOut>)

  datatype Btc = Btc(
    doubleHash: Bytes -> Hash,                     // chainhash.DoubleHashH
    serialize: MsgTx -> Bytes,                     // MsgTx.Serialize
    addrsOf: Bytes -> Option<seq<string>>,         // txscript.ExtractPkScriptAddrs, None on error
    decodeAddress: string -> Option<Bytes>,        // DecodeAddress and PayToAddrScript, None on error
    changeAddress: string,                         // P2WSH address of the nil-tag witness script
    sigHash: (MsgTx, nat, Bytes, Utxo) -> Bytes,   // txscript.CalcWitnessSigHash
    passesPoW: Bytes -> bool,                      // blockchain.CheckProofOfWork on an 80-byte header
    validAddress: string -> bool,                  // sdk.Address.IsValid
    mainnet: bool,
    primaryKey: Bytes,
    backupKey: Bytes
  )

  function TxHash(w: Btc, tx: MsgTx): Hash {
    w.doubleHash(w.serialize(tx))
  }

  function TxID(w: Btc, tx: MsgTx): TxId {
    DisplayHex(TxHash(w, tx))
  }

  // ------------------------------------------------------------ witness scripts

  /** ScriptBuilder.AddData: the canonical push of up to 255 bytes. */
  function PushData(data: Bytes): Bytes
    requires |data| <= 255
  {
    if data == [] || data == [0] then [0x00]
    else if |data| == 1 && data[0] <= 16 then [0x50 + data[0]]
    else if data == [0x81] then [0x4f]
    else if |data| <= 75 then [|data|] + data
    else [0x4c, |data|] + data
  }

  /** ScriptBuilder.AddInt64 of the backup path's block count: 4320, or 2 off mainnet. */
  function PushCsvBlocks(mainnet: bool): Bytes {
    if mainnet then [0x02, 0xe0, 0x10] else [0x52]
  }

  /** The script of createP2WSHAddressWithBackup. A nil tag is checked like a pushed one;
      only an empty, non-nil tag drops the tag clause. */
  function WitnessScript(w: Btc, tag: Option<Bytes>): Bytes
    requires |w.primaryKey| == |w.backupKey| == 33 && (tag.Some? ==> |tag.value| <= 255)
  {
    var primaryPath :=
      if tag.None? then [0xad] + PushData([])
      else if |tag.value| > 0 then [0xad] + PushData(tag.value)
      else [0xac];
    [0x63] + PushData(w.primaryKey) + primaryPath
    + [0x67] + PushCsvBlocks(w.mainnet) + [0xb2, 0x75] + PushData(w.backupKey) + [0xac, 0x68]
  }

  /** Real witness scripts are longer than the 68 bytes the fee estimate assumes:
      76 bytes at least, 111 at most for nil, empty and 32-byte tags. */
  lemma WitnessScriptLength(w: Btc, tag: Option<Bytes>)
    requires |w.primaryKey| == |w.backupKey| == 33
    requires tag.None? || tag.value == [] || |tag.value| == 32
    ensures |WitnessScript(w, tag)|
      == (if w.mainnet then 78 else 76) + (if tag.None? then 1 else |tag.value| + (if tag.value == [] then 0 else 1))
    ensures 76 <= |WitnessScript(w, tag)| <= 111
  {
  }

  // ---------------------------------------------------------------- change address

  /** What the model assumes of btcd: keys are compressed, the change address is a P2WSH address
      (a 34-byte script that names this one address back, and no other length of script does), and
      transactions fit MessagePack's limits. */
  ghost predicate Sane(w: Btc) {
    && |w.primaryKey| == |w.backupKey| == 33
    && var change := w.decodeAddress(w.changeAddress);
    && change.Some? && |change.value| == 34
    && w.addrsOf(change.value) == Some([w.changeAddress])
    && (forall script :: w.addrsOf(script) == Some([w.changeAddress]) ==> |script| == 34)
    && (forall tx :: |w.serialize(tx)| < 0x1_0000_0000)
    && (forall tx, i, script, u :: |w.sigHash(tx, i, script, u)| == 32)
  }

  function ChangeScript(w: Btc): Bytes
    requires Sane(w)
  {
    w.decodeAddress(w.changeAddress).value
  }

  // ---------------------------------------------------------------- calling environment

  datatype Intent = Intent(kind: string, args: map<string, string>)

  datatype Env = Env(
    contractId: string,
    sender: string,
    requiredAuths: seq<string>,
    caller: string,
    callerIntents: seq<Intent>,
    senderIntents: seq<Intent>
  )

  /** checkAuth */
  predicate Authorised(env: Env) {
    env.sender in env.requiredAuths
  }
}
