// What a planned withdrawal hands out for signing, and whether its coins can be spent with it.

module Signing {
  import opened Wrappers
  import opened Int64
  import opened Bytes
  import opened Types
  import opened Keys
  import opened World
  import opened Accounts
  import opened Selection
  import opened Spend
  import opened State
  import opened Unmapping
  import opened Scripts

  /** What the i-th input of a spend and its entry to sign are, for the coin stored under an id. */
  ghost predicate SignsCoin(w: Btc, tx: MsgTx, i: nat, input: Outpoint, entry: UnsignedSigHash, u: Utxo)
    requires |w.primaryKey| == |w.backupKey| == 33 && |u.TagBytes()| <= 255
  {
    && input == Outpoint(u.txId, u.vout)
    && entry.index == i % 0x1_0000_0000
    && entry.witnessScript == WitnessScript(w, u.tag)
    && entry.sigHash == w.sigHash(tx, i, WitnessScript(w, u.tag), u)
  }

  lemma BuiltSpendSigns(w: Btc, rate: Int64, inputs: seq<StoredUtxo>, total: Int64, dest: string, amount: Int64,
                        spend: SpendTx, i: nat)
    requires Sane(w) && SpendableInputs(w, inputs) && BuildSpend(w, rate, inputs, total, dest, amount) == Ok(spend)
    requires i < |inputs|
    ensures |spend.tx.txIn| == |spend.signing.unsignedSigHashes| == |inputs| && |inputs[i].TagBytes()| <= 255
    ensures SignsCoin(w, spend.tx, i, spend.tx.txIn[i], spend.signing.unsignedSigHashes[i], inputs[i])
    ensures spend.signing.tx == w.serialize(spend.tx)
  {
    hide WitnessScript, SpendOutputs, SpendFee;
  }

  /** Every planned withdrawal spends exactly the coins selected, in their order: input i is the outpoint
      of the coin stored under the i-th id, and entry i to sign carries that number, the coin's own witness
      script and the hash computed for that input, script and coin over the whole transaction. */
  lemma PlanSigning(w: Btc, s: State, env: Env, p: TransferParams, plan: Plan, i: nat)
    requires Sane(w) && PlanUnmap(w, s, env, p) == Ok(plan) && i < |plan.inputs.ids|
    ensures |plan.spend.tx.txIn| == |plan.spend.signing.unsignedSigHashes| == |plan.inputs.ids|
    ensures plan.inputs.ids[i] in s.utxos && |w.primaryKey| == |w.backupKey| == 33
    ensures var u := s.utxos[plan.inputs.ids[i]];
      && |u.TagBytes()| <= 255
      && SignsCoin(w, plan.spend.tx, i, plan.spend.tx.txIn[i], plan.spend.signing.unsignedSigHashes[i], u)
    ensures plan.spend.signing.tx == w.serialize(plan.spend.tx)
  {
    hide PlanUnmap, BuildSpend, SelectInputs, SpendableInputs, SignsCoin, CalcVscFee;
    PlanParts(w, s, env, p, plan);
    BuiltSpendSigns(w, s.supply.baseFeeRate, plan.spent, plan.inputs.total, p.to, plan.amount, plan.spend, i);
  }

  /** A signature of the primary key over the hash handed out for input i, with the true selector, satisfies
      the script handed out with it exactly when the coin's tag passes; a signature of the backup key does,
      with the false selector, once the delay has run. */
  lemma PlannedInputSpends(w: Btc, s: State, env: Env, p: TransferParams, plan: Plan, i: nat, signature: Bytes,
                           spender: Spender)
    requires Sane(w) && PlanUnmap(w, s, env, p) == Ok(plan)
    requires i < |plan.inputs.ids| && |plan.spend.signing.unsignedSigHashes| == |plan.inputs.ids|
    ensures plan.inputs.ids[i] in s.utxos
    ensures var script := plan.spend.signing.unsignedSigHashes[i].witnessScript;
      && (Accepts(script, [signature, [1]], spender)
          <==> spender.signs(signature, w.primaryKey) && TagPasses(s.utxos[plan.inputs.ids[i]].tag))
      && (Accepts(script, [signature, []], spender)
          <==> spender.signs(signature, w.backupKey) && spender.sequence >= if w.mainnet then 4320 else 2)
  {
    PlanSigning(w, s, env, p, plan, i);
    hide PlanUnmap, Sane, Accepts, WitnessScript, TagPasses, Truthy;
    var u := s.utxos[plan.inputs.ids[i]];
    TruthyPushed([]);
    assert [signature, [1]] == [signature] + [[1]] && [signature, []] == [signature] + [[]];
    PrimaryPathExact(w, u.tag, [signature], [1], spender);
    BackupPathExact(w, u.tag, [signature], [], spender);
  }
}
