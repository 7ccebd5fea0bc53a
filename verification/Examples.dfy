// Concrete runs: the premises of the theorems met together, and inputs on which
// plainer claims fail.

module Examples {
  import opened Wrappers
  import opened Int64
  import opened Bytes
  import opened Text
  import opened Types
  import opened Keys
  import opened World
  import opened Accounts
  import opened Registry
  import opened Selection
  import opened Spend
  import opened State
  import opened Pools
  import opened Unmapping
  import opened Bounds
  import opened Amounts

  // ---------------------------------------------------------------- a small world

  function Repeat(n: nat, b: Byte): (bs: Bytes)
    ensures |bs| == n
    ensures n > 0 ==> bs[0] == b
  {
    seq(n, i => b)
  }

  function ChangeBytes(): Bytes {
    Repeat(34, 0)
  }

  function DepositBytes(): Bytes {
    Repeat(34, 1)
  }

  const SHORT_ADDRESS := "an address of 26 characters"
  const LONG_ADDRESS := "a P2WSH address, longer than 26 characters"

  /** A world with a change address, a deposit address, and one address for everything else. Its hash
      function tells transactions without inputs from those with, and both from all other strings. */
  function ToyWorld(): Btc {
    Btc(
      doubleHash := (bs: Bytes) =>
        if bs == [1] then Repeat(32, 1) else if bs == [2] then Repeat(32, 2) else Repeat(32, 3),
      serialize := (tx: MsgTx) => if tx.txIn == [] then [1] else [2],
      addrsOf := (script: Bytes) =>
        if script == ChangeBytes() then Some(["change"])
        else if script == DepositBytes() then Some(["deposit"]) else Some(["user"]),
      decodeAddress := (a: string) =>
        if a == "change" then Some(ChangeBytes())
        else if a == LONG_ADDRESS then Some(Repeat(34, 2)) else Some(Repeat(22, 2)),
      changeAddress := "change",
      sigHash := (tx: MsgTx, i: nat, script: Bytes, u: Utxo) => Repeat(32, 0),
      passesPoW := (raw: Bytes) => true,
      validAddress := (a: string) => true,
      mainnet := true,
      primaryKey := Repeat(33, 2),
      backupKey := Repeat(33, 2))
  }

  /** What the examples use of it. */
  lemma ToyFacts()
    ensures var w := ToyWorld();
      && Sane(w) && w.changeAddress == "change" && w.mainnet && ChangeScript(w) == ChangeBytes()
      && w.addrsOf(ChangeBytes()) == Some(["change"]) && w.addrsOf(DepositBytes()) == Some(["deposit"])
      && w.addrsOf(Repeat(22, 2)) == w.addrsOf(Repeat(34, 2)) == Some(["user"])
      && w.decodeAddress(SHORT_ADDRESS) == Some(Repeat(22, 2)) && w.decodeAddress(LONG_ADDRESS) == Some(Repeat(34, 2))
  {
    assert ChangeBytes()[0] == 0 && DepositBytes()[0] == 1 && Repeat(34, 2)[0] == 2 && Repeat(22, 2)[0] == 2;
    assert |SHORT_ADDRESS| == 27 && |LONG_ADDRESS| == 42;
    hide Repeat;
  }

  lemma ParseAmount(n: nat)
    requires 0 < n <= MAX64
    ensures ParseInt64(FormatUint(n, 10)) == Some(n)
  {
    ParseFormatted(n);
    var s := FormatUint(n, 10);
    assert s != [] && s[0] in s;
  }

  // ---------------------------------------------------------------- one user, one input

  /** Alice may draw up to the limit. */
  function Alice(limit: nat): Env {
    var args := map[INTENT_CONTRACT_ID_KEY := "btc", INTENT_LIMIT_KEY := FormatUint(limit, 10)];
    Env("btc", "alice", ["alice"], "alice", [], [Intent(INTENT_TRANSFER_TYPE, args)])
  }

  lemma AlicePays(amount: nat)
    requires 0 < amount <= MAX64
    ensures Authorised(Alice(amount))
    ensures Deduct(Alice(amount), map["alice" := amount], "alice", amount) == Ok(map[])
  {
    ParseAmount(amount);
    hide ParseInt64, FormatUint;
    var intents := Alice(amount).senderIntents;
    assert Applies(intents[0], "btc");
    assert map["alice" := amount] - {"alice"} == map[];
  }

  /** A withdrawal that the first registered coin covers, with one change output. */
  ghost predicate OneInput(s: State, env: Env, p: TransferParams, coin: StoredUtxo, amount: Int64, fee: Int64,
                           destScript: Bytes)
    requires Sane(ToyWorld()) && SpendableInputs(ToyWorld(), [coin])
  {
    && Authorised(env) && ParseInt64(p.amount) == Some(amount) && 1000 < amount <= 100_000
    && s.utxoList != [] && s.utxoList[0] == UtxoRegistryEntry(64, coin.amount) && 64 in s.utxos && s.utxos[64] == coin
    && Covers(1, amount, coin.amount, s.supply.baseFeeRate) && 546 < coin.amount - amount < 2_000_000
    && ToyWorld().decodeAddress(p.to) == Some(destScript)
    && fee == SpendFee(ToyWorld(), s.supply.baseFeeRate, [coin], coin.amount, destScript, amount)
      && -10_000 < fee < 10_000
  }

  function OneInputOutputs(coin: StoredUtxo, amount: Int64, fee: Int64, destScript: Bytes): seq<TxOut>
    requires InInt64(coin.amount - amount - fee)
  {
    [TxOut(amount, destScript), TxOut(coin.amount - amount - fee, ChangeBytes())]
  }

  lemma OneChangeOutput(rate: Int64, coin: StoredUtxo, amount: Int64, fee: Int64, destScript: Bytes)
    requires Sane(ToyWorld()) && SpendableInputs(ToyWorld(), [coin])
    requires 1000 < amount <= 100_000 && 546 < coin.amount - amount < 2_000_000 && -10_000 < fee < 10_000
    requires fee == SpendFee(ToyWorld(), rate, [coin], coin.amount, destScript, amount)
    ensures SpendOutputs(ToyWorld(), rate, [coin], coin.amount, destScript, amount)
      == OneInputOutputs(coin, amount, fee, destScript)
  {
    ToyFacts();
    hide SpendFee, Sane, SpendableInputs, ToyWorld, ChangeScript;
    assert ChangeAmounts(coin.amount - amount - fee, 1) == [coin.amount - amount - fee];
  }

  lemma LoadOne(s: State, coin: StoredUtxo)
    requires 64 in s.utxos && s.utxos[64] == coin
    ensures LoadInputs(s.utxos, [64]) == Ok([coin])
  {
    assert LoadInputs(s.utxos, [64]).value == [coin];
  }

  lemma SelectFirst(es: UtxoRegistry, amount: Int64, rate: Int64)
    requires es != [] && IsConfirmed(es[0]) && Covers(1, amount, es[0].amount, rate)
    ensures SelectInputs(es, amount, rate) == Ok(Inputs([es[0].id], es[0].amount))
  {
    hide Covers;
    assert es[..1] == [es[0]] && es[..1][..0] == [];
    assert FirstSingle(es[..1], amount, rate) == Some(es[0]);
    FirstSinglePrefix(es, 1, amount, rate);
  }

  lemma PlanFromParts(w: Btc, s: State, env: Env, p: TransferParams, plan: Plan)
    requires Sane(w) && SpendableInputs(w, plan.spent) && Authorised(env)
    requires ParseInt64(p.amount) == Some(plan.amount) && plan.amount > 0 && CalcVscFee(plan.amount) == Ok(plan.vscFee)
    requires SelectInputs(s.utxoList, plan.amount, s.supply.baseFeeRate) == Ok(plan.inputs)
    requires LoadInputs(s.utxos, plan.inputs.ids) == Ok(plan.spent)
    requires BuildSpend(w, s.supply.baseFeeRate, plan.spent, plan.inputs.total, p.to, plan.amount) == Ok(plan.spend)
    ensures PlanUnmap(w, s, env, p) == Ok(plan)
  {
    hide ParseInt64, SelectInputs, BuildSpend, LoadInputs, CalcVscFee, Sane, SpendableInputs, Authorised;
  }

  lemma OneInputSpend(rate: Int64, coin: StoredUtxo, amount: Int64, to: string, fee: Int64, destScript: Bytes)
    returns (spend: SpendTx)
    requires Sane(ToyWorld()) && SpendableInputs(ToyWorld(), [coin]) && ToyWorld().decodeAddress(to) == Some(destScript)
    requires 1000 < amount <= 100_000 && 546 < coin.amount - amount < 2_000_000 && -10_000 < fee < 10_000
    requires fee == SpendFee(ToyWorld(), rate, [coin], coin.amount, destScript, amount)
    ensures BuildSpend(ToyWorld(), rate, [coin], coin.amount, to, amount) == Ok(spend)
    ensures spend.fee == fee && spend.tx == MsgTx([OutpointOf(coin)], OneInputOutputs(coin, amount, fee, destScript))
  {
    hide ToyWorld, Sane, SpendableInputs, SpendFee, SpendOutputs, SigHashes, OneInputOutputs;
    OneChangeOutput(rate, coin, amount, fee, destScript);
    assert Outpoints([coin]) == [OutpointOf(coin)];
    spend := BuildSpend(ToyWorld(), rate, [coin], coin.amount, to, amount).value;
  }

  lemma SmallFee(amount: Int64)
    requires 1000 < amount <= 100_000
    ensures CalcVscFee(amount) == Ok(1000)
  {
  }

  lemma OneInputPlan(s: State, env: Env, p: TransferParams, coin: StoredUtxo, amount: Int64, fee: Int64,
                     destScript: Bytes)
    returns (plan: Plan)
    requires Sane(ToyWorld()) && SpendableInputs(ToyWorld(), [coin])
      && OneInput(s, env, p, coin, amount, fee, destScript)
    ensures PlanUnmap(ToyWorld(), s, env, p) == Ok(plan)
    ensures plan.amount == amount && plan.inputs == Inputs([64], coin.amount) && plan.spent == [coin]
      && plan.spend.fee == fee
    ensures plan.vscFee == 1000
      && plan.spend.tx == MsgTx([OutpointOf(coin)], OneInputOutputs(coin, amount, fee, destScript))
  {
    hide ToyWorld, Sane, SpendableInputs, SelectInputs, LoadInputs, CalcVscFee, Covers, SpendFee, BuildSpend, PlanUnmap;
    hide ParseInt64, Authorised, OneInputOutputs;
    var rate := s.supply.baseFeeRate;
    SelectFirst(s.utxoList, amount, rate);
    LoadOne(s, coin);
    SmallFee(amount);
    var spend := OneInputSpend(rate, coin, amount, p.to, fee, destScript);
    plan := Plan(amount, 1000, Inputs([64], coin.amount), [coin], spend);
    PlanFromParts(ToyWorld(), s, env, p, plan);
  }

  lemma OneChangeSlot(tx: MsgTx, coin: StoredUtxo, amount: Int64, fee: Int64, destScript: Bytes)
    requires InInt64(coin.amount - amount - fee) && tx.txOut == OneInputOutputs(coin, amount, fee, destScript)
    requires ToyWorld().addrsOf(destScript) == Some(["user"])
    ensures Sane(ToyWorld())
    ensures ChangeSlots(ToyWorld(), tx, "change")
         == Ok([Some(ChangeUtxo(TxID(ToyWorld(), tx), 1, TxOut(coin.amount - amount - fee, ChangeBytes())))])
  {
    ToyFacts();
    hide ToyWorld, Sane, TxID, ChangeUtxo;
    var w, outs := ToyWorld(), tx.txOut;
    assert HasOneAddress(w, outs[0]) && HasOneAddress(w, outs[1]);
    assert !PaysTo(w, outs[0], "change") && PaysTo(w, outs[1], "change");
    assert outs[..1][..0] == [] && OutputsPaying(w, TxID(w, tx), outs[..1], "change") == [];
    var found := OutputsPaying(w, TxID(w, tx), outs, "change");
    assert found == [ChangeUtxo(TxID(w, tx), 1, outs[1])];
    assert Slots(found, 1) == [Some(found[0])];
  }

  /** Alice's balance, and the supplies, are all that the withdrawal costs. */
  lemma OneInputCompletes(s: State, env: Env, p: TransferParams, coin: StoredUtxo, amount: Int64, fee: Int64,
                          destScript: Bytes)
    returns (plan: Plan, s': State)
    requires Sane(ToyWorld()) && SpendableInputs(ToyWorld(), [coin])
      && OneInput(s, env, p, coin, amount, fee, destScript)
    requires ToyWorld().addrsOf(destScript) == Some(["user"])
    requires CountersInRange(s) && Coherent(s) && UserLedger(s) && s.unconfirmedNextId == 0 && 0 !in s.utxos
    requires var final := amount + 1000 + fee;
      && 0 < final && env == Alice(final) && s.balances == map["alice" := final]
      && s.supply.activeSupply == s.supply.userSupply == final && s.supply.feeSupply == 0
    ensures Completes(ToyWorld(), s, env, p, plan, s')
    ensures plan.amount == amount && plan.inputs == Inputs([64], coin.amount) && plan.spent == [coin]
      && plan.spend.fee == fee
    ensures plan.vscFee == 1000
      && plan.spend.tx == MsgTx([OutpointOf(coin)], OneInputOutputs(coin, amount, fee, destScript))
    ensures s'.utxoList == Without(s.utxoList, 64) + [UtxoRegistryEntry(0, coin.amount - amount - fee)]
    ensures s'.balances == map[] && s'.supply == SystemSupply(0, 0, 1000, s.supply.baseFeeRate)
    ensures s'.txSpends == s.txSpends[TxID(ToyWorld(), plan.spend.tx) := plan.spend.signing]
    ensures s'.utxos.Keys == s.utxos.Keys - {64} + {0}
    ensures s'.headers == s.headers && s'.lastHeight == s.lastHeight && s'.observed == s.observed
      && s'.router == s.router
  {
    ToyFacts();
    hide PlanUnmap, ExecuteUnmap, Sane, ToyWorld, SpendableInputs, TxID, Coherent, UserLedger, Covers, SpendFee, Deduct;
    hide ChangeSlots;
    hide CountersInRange, ParseInt64, Authorised, Without;
    plan := OneInputPlan(s, env, p, coin, amount, fee, destScript);
    AlicePays(amount + 1000 + fee);
    OneChangeSlot(plan.spend.tx, coin, amount, fee, destScript);
    assert ToyWorld().changeAddress == "change";
    assert plan.FinalAmt() == amount + 1000 + fee && env.sender == "alice";
    s' := OneInputState(s, env, coin, amount, fee, plan);
  }

  lemma OneInputState(s: State, env: Env, coin: StoredUtxo, amount: Int64, fee: Int64, plan: Plan) returns (s': State)
    requires Sane(ToyWorld()) && CountersInRange(s) && s.unconfirmedNextId == 0 && 0 !in s.utxos
    requires InInt64(coin.amount - amount - fee) && |plan.spend.tx.txOut| == 2
    requires plan.FinalAmt() == amount + 1000 + fee && plan.vscFee == 1000 && plan.inputs.ids == [64]
    requires Deduct(env, s.balances, env.sender, plan.FinalAmt()) == Ok(map[])
    requires s.supply.activeSupply == s.supply.userSupply == plan.FinalAmt() && s.supply.feeSupply == 0
    requires ChangeSlots(ToyWorld(), plan.spend.tx, ToyWorld().changeAddress)
          == Ok([Some(ChangeUtxo(TxID(ToyWorld(), plan.spend.tx), 1,
            TxOut(coin.amount - amount - fee, ChangeBytes())))])
    ensures ExecuteUnmap(ToyWorld(), s, env, plan) == Ok(s')
    ensures s'.utxoList == Without(s.utxoList + [UtxoRegistryEntry(0, coin.amount - amount - fee)], 64)
    ensures s'.utxoList == Without(s.utxoList, 64) + [UtxoRegistryEntry(0, coin.amount - amount - fee)]
    ensures s'.balances == map[] && s'.supply == SystemSupply(0, 0, 1000, s.supply.baseFeeRate)
    ensures s'.txSpends == s.txSpends[TxID(ToyWorld(), plan.spend.tx) := plan.spend.signing]
    ensures s'.utxos.Keys == s.utxos.Keys - {64} + {0}
    ensures s'.headers == s.headers && s'.lastHeight == s.lastHeight && s'.observed == s.observed
      && s'.router == s.router
  {
    hide Sane, ToyWorld, TxID, Deduct, ChangeSlots, Without;
    var u := ChangeUtxo(TxID(ToyWorld(), plan.spend.tx), 1, TxOut(coin.amount - amount - fee, ChangeBytes()));
    ChangeStorable(ToyWorld(), plan.spend.tx);
    var s0 := s.(balances := map[]);
    assert AllocateUnconfirmed(0, s.utxos.Keys) == Ok(Allocation(0, 1));
    assert StorableSlots([Some(u)]);
    assert [Some(u)][1..] == [];
    var s1 := WithChange(s0, Allocation(0, 1), u);
    assert AddChange(s0, [Some(u)]) == Ok(s1);
    RemoveOne(s1, 64);
    WithoutAppend(s.utxoList, [UtxoRegistryEntry(0, u.amount)], 64);
    WithoutOther(0, u.amount);
    s' := ExecuteUnmap(ToyWorld(), s, env, plan).value;
  }

  lemma RemoveOne(s: State, id: Byte)
    ensures RemoveInputs(s, [id]) == s.(utxoList := Without(s.utxoList, id), utxos := s.utxos - {id})
  {
    assert [id][..0] == [] && [id][0] == id;
    assert WithoutAll(s.utxoList, []) == s.utxoList;
    assert WithoutAll(s.utxoList, [id]) == Without(s.utxoList, id);
    assert (set x | x in [id]) == {id};
  }

  lemma WithoutOther(id: Byte, amount: Int64)
    requires id != 64
    ensures Without([UtxoRegistryEntry(id, amount)], 64) == [UtxoRegistryEntry(id, amount)]
  {
  }

  // ---------------------------------------------------------------- an estimate that falls short

  function Coin(vout: Uint32, amount: Int64): StoredUtxo {
    Utxo(ZeroTxId(), vout, amount, DepositBytes(), Some(Repeat(32, 7)))
  }

  /** Two deposited coins that belong to Alice, at a fee rate of 10. */
  function TwoCoins(): State {
    EmptyState().(
      utxoList := [UtxoRegistryEntry(64, 3750), UtxoRegistryEntry(65, 1110)],
      confirmedNextId := 66,
      utxos := map[64 := Coin(0, 3750), 65 := Coin(1, 1110)],
      observed := {Outpoint(ZeroTxId(), 0), Outpoint(ZeroTxId(), 1)},
      balances := map["alice" := 4860],
      supply := SystemSupply(4860, 4860, 0, 10))
  }

  lemma TwoCoinsInv()
    ensures Inv(TwoCoins()) && Reserve(TwoCoins()) == Accounted(TwoCoins())
    ensures ModerateRate(TwoCoins()) && NonNegativeEntries(TwoCoins().utxoList)
  {
    var s := TwoCoins();
    var es := s.utxoList;
    hide Repeat;
    assert es[..1] == [UtxoRegistryEntry(64, 3750)] && es[..1][..0] == [];
    assert SumAmounts(es[..1]) == 3750;
    assert es[0].id in IdSet(es) && es[1].id in IdSet(es);
    assert s.balances - {"alice"} == map[];
    Accounts.SumWithout(s.balances, "alice");
  }

  lemma CoinScript()
    ensures Sane(ToyWorld()) && SpendableInputs(ToyWorld(), [Coin(0, 3750)])
    ensures WitnessDataSize(WitnessScripts(ToyWorld(), [Coin(0, 3750)])) == 186
  {
    ToyFacts();
    assert |ToyWorld().primaryKey| == |ToyWorld().backupKey| == 33;
    var coin := Coin(0, 3750);
    hide ToyWorld, Repeat, Sane;
    WitnessScriptLength(ToyWorld(), coin.tag);
    hide WitnessScript;
    var scripts := WitnessScripts(ToyWorld(), [coin]);
    assert scripts[..0] == [] && |scripts[0]| == 111;
  }

  lemma CoinEstimate()
    ensures EstimateFee(1, 2000, 3750, 10) == 1750 && Covers(1, 2000, 3750, 10)
  {
    assert EstimateVSize(1, 1750) == 175;
    hide EstimateVSize;
  }

  lemma CoinSize()
    requires Sane(ToyWorld()) && SpendableInputs(ToyWorld(), [Coin(0, 3750)])
    requires WitnessDataSize(WitnessScripts(ToyWorld(), [Coin(0, 3750)])) == 186
    ensures SpendVSize(ToyWorld(), [Coin(0, 3750)], Repeat(34, 2), 1) == 186
  {
    assert TxOutSize(ChangeScript(ToyWorld())) == 43 && TxOutSize(Repeat(34, 2)) == 43;
    hide ToyWorld, Repeat, Sane, ChangeScript, WitnessScripts, WitnessDataSize, SpendableInputs;
  }

  /** One deposited coin to a 34-byte script: estimated at 175 virtual bytes, 186 in truth. */
  lemma ElevenBytesShort()
    ensures Sane(ToyWorld()) && SpendableInputs(ToyWorld(), [Coin(0, 3750)])
    ensures EstimateFee(1, 2000, 3750, 10) == 1750 && Covers(1, 2000, 3750, 10)
    ensures SpendFee(ToyWorld(), 10, [Coin(0, 3750)], 3750, Repeat(34, 2), 2000) == 1860
  {
    hide ToyWorld, Repeat, Sane, SpendableInputs, WitnessScripts, WitnessDataSize, SpendVSize, EstimateFee, Covers;
    CoinScript();
    CoinEstimate();
    CoinSize();
    assert ChangeCount(1750) == 1;
  }

  function LargeWithdrawal(): TransferParams {
    TransferParams(FormatUint(2000, 10), LONG_ADDRESS, "")
  }

  lemma TwoCoinsPremises()
    ensures Sane(ToyWorld()) && SpendableInputs(ToyWorld(), [Coin(0, 3750)]) && Moderate(ToyWorld(), LargeWithdrawal())
    ensures OneInput(TwoCoins(), Alice(4860), LargeWithdrawal(), Coin(0, 3750), 2000, 1860, Repeat(34, 2))
  {
    hide ToyWorld, Sane, SpendableInputs, ParseInt64, FormatUint, Authorised, SpendFee, Covers, Repeat, Alice;
    hide DepositBytes, Deduct;
    hide EstimateFee;
    ElevenBytesShort();
    ToyFacts();
    ParseAmount(2000);
    AlicePays(4860);
  }

  lemma SecondCoinStays()
    ensures Without(TwoCoins().utxoList, 64) == [UtxoRegistryEntry(65, 1110)]
  {
    var es := TwoCoins().utxoList;
    assert es[..1] == [es[0]] && es[..1][..0] == [];
    assert Without(es[..1], 64) == [];
  }

  /** Within every bound a withdrawal completes whose real fee exceeds the estimate by more than its inputs
      had to spare: it leaves a change output, and a registry entry, of minus 110 satoshis. */
  lemma NegativeChange() returns (plan: Plan, s': State)
    ensures Inv(TwoCoins()) && ModerateRate(TwoCoins()) && NonNegativeEntries(TwoCoins().utxoList)
    ensures Completes(ToyWorld(), TwoCoins(), Alice(4860), LargeWithdrawal(), plan, s')
      && Moderate(ToyWorld(), LargeWithdrawal())
    ensures plan.spend.fee == 1860 && plan.spend.tx.txOut == [TxOut(2000, Repeat(34, 2)), TxOut(-110, ChangeBytes())]
    ensures s'.utxoList == [UtxoRegistryEntry(65, 1110), UtxoRegistryEntry(0, -110)]
  {
    TwoCoinsInv();
    TwoCoinsPremises();
    SecondCoinStays();
    ToyFacts();
    hide ToyWorld, Sane, SpendableInputs, Without, Repeat, Completes, OneInput, Inv, ModerateRate, Moderate;
    hide LargeWithdrawal;
    assert CountersInRange(TwoCoins()) && Coherent(TwoCoins()) && UserLedger(TwoCoins()) by { LedgerParts(); }
    hide Coherent, UserLedger, CountersInRange;
    plan, s' := OneInputCompletes(TwoCoins(), Alice(4860), LargeWithdrawal(), Coin(0, 3750), 2000, 1860, Repeat(34, 2));
  }

  lemma LedgerParts()
    ensures CountersInRange(TwoCoins()) && Coherent(TwoCoins()) && UserLedger(TwoCoins())
  {
    TwoCoinsInv();
    hide TwoCoins;
  }
}
