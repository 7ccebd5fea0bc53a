// State keys (constants.go) and the proof that the flat string-keyed store
// keeps its tables apart.

module Keys {
  import opened Int64
  import opened Bytes
  import opened Text

  const BALANCE_PREFIX := "a-"
  const OBSERVED_PREFIX := "o-"
  const UTXO_PREFIX := "u-"
  const TX_SPENDS_PREFIX := "d-"
  const BLOCK_PREFIX := "b-"

  datatype Outpoint = Outpoint(txId: TxId, vout: Uint32)

  datatype Key =
    | BalanceKey(account: string)
    | ObservedKey(outpoint: Outpoint)
    | UtxoKey(id: Byte)
    | TxSpendKey(txId: TxId)
    | BlockKey(height: Uint32)
    | UtxoRegistryKey
    | UtxoLastIdKey
    | TxSpendsRegistryKey
    | SupplyKey
    | LastHeightKey
    | RouterContractIdKey
    | PrimaryPublicKeyStateKey
    | BackupPublicKeyStateKey

  /** The string under which a key's value is stored. */
  function Render(k: Key): (s: string)
  {
    match k
    case BalanceKey(account) => BALANCE_PREFIX + account
    case ObservedKey(o) => OBSERVED_PREFIX + o.txId + ":" + FormatUint(o.vout, 10)
    case UtxoKey(id) => UTXO_PREFIX + FormatUint(id, 16)
    case TxSpendKey(txId) => TX_SPENDS_PREFIX + txId
    case BlockKey(height) => BLOCK_PREFIX + FormatUint(height, 10)
    case UtxoRegistryKey => "r"
    case UtxoLastIdKey => "i"
    case TxSpendsRegistryKey => "p"
    case SupplyKey => "s"
    case LastHeightKey => "h"
    case RouterContractIdKey => "routerid"
    case PrimaryPublicKeyStateKey => "pubkey"
    case BackupPublicKeyStateKey => "backupkey"
  }

  predicate HasTable(k: Key) {
    k.BalanceKey? || k.ObservedKey? || k.UtxoKey? || k.TxSpendKey? || k.BlockKey?
  }

  /** What follows the two-character prefix of a table key. */
  function Suffix(k: Key): string
    requires HasTable(k)
  {
    match k
    case BalanceKey(account) => account
    case ObservedKey(o) => o.txId + ":" + FormatUint(o.vout, 10)
    case UtxoKey(id) => FormatUint(id, 16)
    case TxSpendKey(txId) => txId
    case BlockKey(height) => FormatUint(height, 10)
  }

  function PrefixLetter(k: Key): char {
    match k
    case BalanceKey(_) => 'a'
    case ObservedKey(_) => 'o'
    case UtxoKey(_) => 'u'
    case TxSpendKey(_) => 'd'
    case _ => 'b'
  }

  lemma TableShape(k: Key)
    ensures HasTable(k) <==> |Render(k)| >= 2 && Render(k)[1] == '-'
    ensures HasTable(k) ==> Render(k)[2..] == Suffix(k)
    ensures HasTable(k) ==> Render(k)[0] == PrefixLetter(k)
  {
    if k.ObservedKey? {
      assert Render(k) == OBSERVED_PREFIX + Suffix(k);
    }
  }

  lemma ObservedSuffixInjective(o: Outpoint, p: Outpoint)
    requires Suffix(ObservedKey(o)) == Suffix(ObservedKey(p))
    ensures o == p
  {
    var s, t := Suffix(ObservedKey(o)), Suffix(ObservedKey(p));
    assert s[..64] == o.txId && t[..64] == p.txId;
    assert s[65..] == FormatUint(o.vout, 10) && t[65..] == FormatUint(p.vout, 10);
    FormatUintInjective(o.vout, p.vout, 10);
  }

  /** Distinct keys never share a string: tables are disjoint and each builder is injective. */
  lemma RenderInjective(k: Key, l: Key)
    ensures Render(k) == Render(l) <==> k == l
  {
    if Render(k) == Render(l) {
      TableShape(k);
      TableShape(l);
      if HasTable(k) {
        assert Suffix(k) == Suffix(l);
        match k
        case BalanceKey(_) =>
        case ObservedKey(o) => ObservedSuffixInjective(o, l.outpoint);
        case UtxoKey(id) => FormatUintInjective(id, l.id, 16);
        case TxSpendKey(_) =>
        case BlockKey(h) => FormatUintInjective(h, l.height, 10);
      } else {
        assert k == l by {
          var s := Render(k);
          assert |s| == 1 || s in ["routerid", "pubkey", "backupkey"];
          assert s[0] == Render(l)[0] && |s| == |Render(l)|;
        }
      }
    }
  }
}
