// Explicit bounds on amounts, fee rates and destination scripts under which no
// unchecked int64 operation wraps, and the reserve ledger with them as premises.

module Bounds {
  import opened Wrappers
  import opened Int64
  import opened Bytes
  import opened Text
  import opened Types
  import opened World
  import opened Accounts
  import opened Selection
  import opened Spend
  import opened State
  import opened Unmapping
  import opened Mapping
  import opened Crediting
  import opened Blocklist
  import opened Machine
  import opened Runs

  /** All bitcoins there can be, in satoshis. */
  const MAX_SATOSHIS := 2_100_000_000_000_000
  /** A fee rate of 0.01 bitcoin a byte. */
  const MAX_FEE_RATE := 1_000_000
  /** Bitcoin's script size limit. */
  const MAX_SCRIPT_SIZE := 10_000

  /** What a withdrawal asks for stays within the bounds. */
  predicate Moderate(w: Btc, p: TransferParams) {
    && (ParseInt64(p.amount).Some? ==> ParseInt64(p.amount).value <= MAX_SATOSHIS)
    && (w.decodeAddress(p.to).Some? ==> |w.decodeAddress(p.to).value| <= MAX_SCRIPT_SIZE)
  }

  predicate ModerateRate(s: State) {
    0 <= s.supply.baseFeeRate <= MAX_FEE_RATE
  }

  predicate ModerateAction(w: Btc, a: Action) {
    && (a.UnmapAction? ==> Moderate(w, a.params))
    && (a.AddBlocksAction? ==> 0 <= a.latestFee <= MAX_FEE_RATE)
  }

  // ---------------------------------------------------------------- sizes

  lemma {:induction false} Pigeonhole(ids: seq<Byte>, n: nat)
    requires forall i :: 0 <= i < |ids| ==> ids[i] < n
    requires forall i, j :: 0 <= i < j < |ids| ==> ids[i] != ids[j]
    ensures |ids| <= n
  {
    if ids != [] {
      assert ids[0] < n;
      if i :| 0 <= i < |ids| && ids[i] == n - 1 {
        Pigeonhole(ids[..i] + ids[i + 1..], n - 1);
      } else {
        Pigeonhole(ids, n - 1);
      }
    }
  }

  lemma ScriptsSize(w: Btc, inputs: seq<Utxo>)
    requires SpendableInputs(w, inputs) && |inputs| <= 256
    ensures WitnessDataSize(WitnessScripts(w, inputs)) <= 256 * 475
  {
    var scripts := WitnessScripts(w, inputs);
    forall s | s in scripts ensures |s| <= 400 {
      var i :| 0 <= i < |inputs| && scripts[i] == s;
    }
    hide WitnessScript;
    WitnessDataBound(scripts, 400);
  }

  lemma SizeBound(w: Btc, inputs: seq<Utxo>, destScript: Bytes, change: nat)
    requires Sane(w) && SpendableInputs(w, inputs) && |inputs| <= 256
    requires |destScript| <= MAX_SCRIPT_SIZE && change <= 4
    ensures SpendVSize(w, inputs, destScript, change) <= 100_000
  {
    assert TxOutSize(ChangeScript(w)) == 43;
    hide Sane, ChangeScript, WitnessScripts, WitnessDataSize, SpendableInputs;
    ScriptsSize(w, inputs);
    assert OneOutputSize(|inputs|, destScript) <= 12 + 41 * 256 + 8 + 3 + MAX_SCRIPT_SIZE;
  }

  lemma EstimateBound(n: nat, totalChange: int)
    requires n <= 256
    ensures EstimateVSize(n, totalChange) <= 100_000
  {
    hide NumChangeOutputs;
    EstimateArithmetic(n, totalChange);
  }

  lemma FeeBound(size: nat, rate: int)
    requires size <= 100_000 && 0 <= rate <= MAX_FEE_RATE
    ensures 0 <= Wrap64(size * rate) == size * rate <= 100_000_000_000
  {
    MulMonotone(rate, size, 100_000);
    MulMonotone(rate, 0, size);
    assert size * rate == rate * size;
    hide Wrap64;
  }

  // ---------------------------------------------------------------- withdrawals

  lemma SelectedCount(s: State, amount: Int64, rate: Int64, inputs: Inputs)
    requires Coherent(s) && SelectInputs(s.utxoList, amount, rate) == Ok(inputs)
    ensures |inputs.ids| <= 256 && Covers(|inputs.ids|, amount, inputs.total, rate)
  {
    hide SelectInputs, Covers;
    var taken := SelectionSound(s.utxoList, amount, rate);
    Pigeonhole(inputs.ids, 256);
  }

  /** Within the bounds a withdrawal wraps nowhere: its inputs cover the amount and the estimated
      fee in plain integers, and its fee is not negative. */
  lemma ModeratePlan(w: Btc, s: State, env: Env, p: TransferParams, plan: Plan)
    requires Sane(w) && Coherent(s) && ModerateRate(s) && Moderate(w, p)
    requires PlanUnmap(w, s, env, p) == Ok(plan)
    ensures NoWrap(plan) && 0 <= plan.spend.fee <= 100_000_000_000
    ensures var estimate := EstimateFee(|plan.inputs.ids|, plan.amount, plan.inputs.total, s.supply.baseFeeRate);
      0 <= estimate && plan.amount + estimate <= plan.inputs.total
  {
    hide PlanUnmap, Sane, SpendableInputs, Covers, SpendFee, EstimateFee, Coherent, Wrap64, Moderate;
    var destScript := PlanFacts(w, s, env, p, plan);
    EstimateCovered(|plan.inputs.ids|, plan.amount, plan.inputs.total, s.supply.baseFeeRate);
    ModerateFee(w, s.supply.baseFeeRate, plan.spent, plan.inputs.total, destScript, plan.amount);
  }

  lemma PlanFacts(w: Btc, s: State, env: Env, p: TransferParams, plan: Plan) returns (destScript: Bytes)
    requires Sane(w) && Coherent(s) && Moderate(w, p) && PlanUnmap(w, s, env, p) == Ok(plan)
    ensures 0 < plan.amount <= MAX_SATOSHIS && 0 < plan.vscFee < plan.amount
    ensures |plan.spent| == |plan.inputs.ids| <= 256 && SpendableInputs(w, plan.spent)
    ensures Covers(|plan.inputs.ids|, plan.amount, plan.inputs.total, s.supply.baseFeeRate)
    ensures |destScript| <= MAX_SCRIPT_SIZE && w.decodeAddress(p.to) == Some(destScript)
    ensures plan.spend.fee == SpendFee(w, s.supply.baseFeeRate, plan.spent, plan.inputs.total, destScript, plan.amount)
  {
    hide PlanUnmap, SelectInputs, Sane, SpendableInputs, BuildSpend, SpendOutputs, ChangeCount, CalcVscFee, Covers;
    hide SpendFee;
    hide LoadInputs, Coherent, Outpoints, SigHashes, ChangeScript, ParseInt64, Authorised;
    PlanAmount(w, s, env, p, plan);
    PlanParts(w, s, env, p, plan);
    destScript := PlanSpend(w, s, env, p, plan);
    SelectedCount(s, plan.amount, s.supply.baseFeeRate, plan.inputs);
    LoadedCount(s.utxos, plan.inputs.ids, plan.spent);
  }

  lemma LoadedCount(utxos: map<Byte, StoredUtxo>, ids: seq<Byte>, spent: seq<StoredUtxo>)
    requires LoadInputs(utxos, ids) == Ok(spent)
    ensures |spent| == |ids|
  {
  }

  lemma EstimateCovered(n: nat, amount: Int64, total: Int64, rate: Int64)
    requires n <= 256 && 0 < amount <= MAX_SATOSHIS && 0 <= rate <= MAX_FEE_RATE && Covers(n, amount, total, rate)
    ensures 0 <= EstimateFee(n, amount, total, rate) && amount + EstimateFee(n, amount, total, rate) <= total
  {
    hide EstimateVSize, Wrap64;
    var change := Wrap64(total - amount);
    EstimateBound(n, change);
    FeeBound(EstimateVSize(n, change), rate);
  }

  lemma ModerateFee(w: Btc, rate: Int64, inputs: seq<Utxo>, total: Int64, destScript: Bytes, amount: Int64)
    requires Sane(w) && SpendableInputs(w, inputs) && |inputs| <= 256 && |destScript| <= MAX_SCRIPT_SIZE
    requires 0 <= rate <= MAX_FEE_RATE
    ensures 0 <= SpendFee(w, rate, inputs, total, destScript, amount) <= 100_000_000_000
  {
    hide SpendVSize, Sane, SpendableInputs, ChangeCount, Wrap64;
    var change := Wrap64(total - amount);
    ChangeAtMostFour(change);
    SizeBound(w, inputs, destScript, ChangeCount(change));
    FeeBound(SpendVSize(w, inputs, destScript, ChangeCount(change)), rate);
  }

  lemma ChangeAtMostFour(change: int)
    ensures ChangeCount(change) <= 4
  {
  }

  lemma PlanAmount(w: Btc, s: State, env: Env, p: TransferParams, plan: Plan)
    requires Sane(w) && PlanUnmap(w, s, env, p) == Ok(plan)
    ensures ParseInt64(p.amount) == Some(plan.amount) && 0 < plan.vscFee < plan.amount
  {
    hide SelectInputs, BuildSpend, LoadInputs, Sane;
  }

  /** Nothing wraps in the two fees of a withdrawal within the bounds. */
  lemma ModerateFees(w: Btc, s: State, env: Env, p: TransferParams, plan: Plan) returns (destScript: Bytes)
    requires Sane(w) && Coherent(s) && ModerateRate(s) && Moderate(w, p)
    requires PlanUnmap(w, s, env, p) == Ok(plan)
    ensures w.decodeAddress(p.to) == Some(destScript) && SpendableInputs(w, plan.spent)
    ensures |plan.spent| == |plan.inputs.ids| && NoWrap(plan) && plan.inputs.total >= plan.amount
    ensures var rate, change := s.supply.baseFeeRate, Wrap64(plan.inputs.total - plan.amount);
      && plan.spend.fee == SpendFee(w, rate, plan.spent, plan.inputs.total, destScript, plan.amount)
      && InInt64(SpendVSize(w, plan.spent, destScript, ChangeCount(change)) * rate)
      && InInt64(EstimateVSize(|plan.spent|, change) * rate)
  {
    hide PlanUnmap, Sane, SpendableInputs, Covers, SpendFee, EstimateFee, Coherent, Wrap64, Moderate, SpendVSize;
    hide EstimateVSize;
    hide ChangeCount, NoWrap;
    ModeratePlan(w, s, env, p, plan);
    destScript := PlanFacts(w, s, env, p, plan);
    var n, rate := |plan.inputs.ids|, s.supply.baseFeeRate;
    var change := Wrap64(plan.inputs.total - plan.amount);
    EstimateBound(n, change);
    FeeBound(EstimateVSize(n, change), rate);
    ChangeAtMostFour(change);
    SizeBound(w, plan.spent, destScript, ChangeCount(change));
    FeeBound(SpendVSize(w, plan.spent, destScript, ChangeCount(change)), rate);
  }

  /** The inputs pay for the size of the spend that the estimate missed, if there is change to take it from. */
  ghost predicate Affordable(w: Btc, rate: Int64, p: TransferParams, plan: Plan) {
    && w.decodeAddress(p.to).Some? && SpendableInputs(w, plan.spent)
    && var leftover := plan.inputs.total - plan.amount;
       (leftover > DUST_THRESHOLD ==>
          rate * SizeExcess(w, plan.spent, w.decodeAddress(p.to).value)
          <= leftover - EstimateFee(|plan.spent|, plan.amount, plan.inputs.total, rate))
  }

  /** When no change output is negative: exactly when what the inputs hold beyond amount and estimated
      fee pays for the size that the estimate missed. */
  lemma ModerateChange(w: Btc, s: State, env: Env, p: TransferParams, plan: Plan)
    requires Sane(w) && Coherent(s) && ModerateRate(s) && Moderate(w, p)
    requires PlanUnmap(w, s, env, p) == Ok(plan)
    ensures var outs := plan.spend.tx.txOut;
      (forall i :: 1 <= i < |outs| ==> outs[i].value >= 0) <==> Affordable(w, s.supply.baseFeeRate, p, plan)
  {
    hide PlanUnmap, Sane, SpendableInputs, SpendFee, EstimateFee, Coherent, Wrap64, Moderate, SpendVSize, EstimateVSize;
    hide SizeExcess;
    hide SpendOutputs, ChangeScript, SigHashes, Outpoints, SumOutputs;
    var destScript := ModerateFees(w, s, env, p, plan);
    var d := PlanSpend(w, s, env, p, plan);
    var rate := s.supply.baseFeeRate;
    CoverageExact(w, rate, plan.spent, plan.inputs.total, destScript, plan.amount);
    if plan.inputs.total - plan.amount > DUST_THRESHOLD {
      SpendConserves(w, rate, plan.spent, plan.inputs.total, destScript, plan.amount);
    }
  }

  /** The drift of a withdrawal to another address within the bounds: none with change outputs;
      without, the reported fee less a leftover that lies between the estimated fee and 546, so at
      most the rate times the size difference between the real spend and its estimate. */
  lemma ModerateDrift(w: Btc, s: State, env: Env, p: TransferParams, plan: Plan) returns (destScript: Bytes)
    requires Sane(w) && Coherent(s) && ModerateRate(s) && Moderate(w, p)
    requires PlanUnmap(w, s, env, p) == Ok(plan) && !PaysChangeAddress(w, plan)
    ensures w.decodeAddress(p.to) == Some(destScript) && SpendableInputs(w, plan.spent)
    ensures var leftover := plan.inputs.total - plan.amount;
      if leftover > DUST_THRESHOLD then Drift(w, plan) == 0
      else 0 <= leftover <= 546 && Drift(w, plan) == plan.spend.fee - leftover
           && Drift(w, plan) <= s.supply.baseFeeRate * SizeExcess(w, plan.spent, destScript)
  {
    hide PlanUnmap, Sane, SpendableInputs, SpendFee, EstimateFee, Coherent, Wrap64, Moderate, SizeExcess, SpendVSize;
    hide EstimateVSize;
    ModeratePlan(w, s, env, p, plan);
    destScript := ModerateFees(w, s, env, p, plan);
    FeeAgreement(w, s.supply.baseFeeRate, plan.spent, plan.inputs.total, destScript, plan.amount);
  }

  // ---------------------------------------------------------------- runs

  lemma StepModerateRate(w: Btc, s: State, a: Action)
    requires Sane(w) && WellFormedAction(w, a) && LedgerInv(s) && ModerateRate(s) && ModerateAction(w, a)
    requires a.MapAction? ==> NonNegativeOutputs(a.req.tx)
    ensures ModerateRate(Next(w, s, a))
  {
    hide Sane, MapTx, WellFormed, Transfer, AddBlocks, Unmap, Coherent, UserLedger, NonNegativeOutputs, PlanUnmap;
    hide SumValues;
    if Step(w, s, a).Ok? {
      var s' := Step(w, s, a).value;
      match a
      case MapAction(req) =>
        WellFormedBound(w, req);
        var value := ValuesOf(w, req.tx);
        MapEffect(w, s, req, s', value);
      case UnmapAction(env, p) =>
        var plan := UnmapCompletes(w, s, a);
        UnmapOther(w, s, env, p, plan, s');
      case TransferAction(_, _) =>
      case _ => AdministrativeKeeps(w, s, a, s');
    }
  }

  ghost predicate ModerateRun(w: Btc, actions: seq<Action>) {
    forall i :: 0 <= i < |actions| ==> ModerateAction(w, actions[i])
  }

  lemma {:induction false} ModerateNoWrap(w: Btc, s: State, actions: seq<Action>)
    requires WellFormedRun(w, s, actions) && LedgerInv(s) && NonNegativeDeposits(actions)
    requires ModerateRate(s) && ModerateRun(w, actions)
    ensures NoWrapRun(w, s, actions) && ModerateRate(Run(w, s, actions))
    decreases |actions|
  {
    hide Next, Sane, WellFormedAction, NonNegativeOutputs, NoWrap, ModerateRate, ModerateAction, Coherent, UserLedger;
    if actions != [] {
      var front, last := actions[..|actions| - 1], actions[|actions| - 1];
      ModerateNoWrap(w, s, front);
      RunKeepsLedger(w, s, front);
      StepModerateRate(w, Run(w, s, front), last);
      ModerateStep(w, Run(w, s, front), last);
      hide CompletedPlan;
    }
  }

  lemma ModerateStep(w: Btc, s: State, a: Action)
    requires Sane(w) && WellFormedAction(w, a) && LedgerInv(s) && ModerateRate(s) && ModerateAction(w, a)
    ensures var plan := CompletedPlan(w, s, a); plan.Some? ==> NoWrap(plan.value)
  {
    hide Sane, PlanUnmap, Unmap, NoWrap, Moderate, ModerateRate, Coherent, UserLedger, CountersInRange;
    if CompletedPlan(w, s, a).Some? {
      ModeratePlan(w, s, a.env, a.params, CompletedPlan(w, s, a).value);
    }
  }

  /** The reserve ledger from an empty store, over every run whose withdrawals ask for at most all
      bitcoins there are and whose fee rates lie between 0 and a million: satoshis in the registry
      equal active plus fee supply plus the drift. */
  lemma ModerateReserve(w: Btc, actions: seq<Action>)
    requires WellFormedRun(w, EmptyState(), actions) && NonNegativeDeposits(actions) && ModerateRun(w, actions)
    ensures var s := Run(w, EmptyState(), actions);
      Reserve(s) == s.supply.activeSupply + s.supply.feeSupply + TotalDrift(w, EmptyState(), actions)
  {
    hide LedgerInv, Run, TotalDrift, NoWrapRun, WellFormedRun, Reserve, NonNegativeDeposits, ModerateRun;
    InitialLedger();
    ModerateNoWrap(w, EmptyState(), actions);
    ReserveFromScratch(w, actions);
  }

  // ---------------------------------------------------------------- drift over runs

  predicate WithoutChange(plan: Plan) {
    plan.inputs.total - plan.amount <= DUST_THRESHOLD
  }

  /** The most a withdrawal can drift: without change what the reported fee exceeds the estimate by,
      and what went to the change address itself. */
  function DriftLimit(w: Btc, rate: Int64, plan: Plan): int {
    (if WithoutChange(plan)
     then plan.spend.fee - EstimateFee(|plan.inputs.ids|, plan.amount, plan.inputs.total, rate) else 0)
    + if PaysChangeAddress(w, plan) then plan.amount else 0
  }

  /** Withdrawals of the run that completed without change outputs. */
  function CountWithoutChange(w: Btc, s: State, actions: seq<Action>): (k: nat)
    requires WellFormedRun(w, s, actions)
    decreases |actions|
  {
    if actions == [] then 0 else
    var front := actions[..|actions| - 1];
    var plan := CompletedPlan(w, Run(w, s, front), actions[|actions| - 1]);
    CountWithoutChange(w, s, front) + if plan.Some? && WithoutChange(plan.value) then 1 else 0
  }

  function TotalLimit(w: Btc, s: State, actions: seq<Action>): int
    requires WellFormedRun(w, s, actions)
    decreases |actions|
  {
    if actions == [] then 0 else
    var front := actions[..|actions| - 1];
    var before := Run(w, s, front);
    var plan := CompletedPlan(w, before, actions[|actions| - 1]);
    TotalLimit(w, s, front) + if plan.Some? then DriftLimit(w, before.supply.baseFeeRate, plan.value) else 0
  }

  lemma StepDrift(w: Btc, s: State, a: Action, plan: Plan)
    requires Sane(w) && WellFormedAction(w, a) && LedgerInv(s) && ModerateRate(s) && ModerateAction(w, a)
    requires CompletedPlan(w, s, a) == Some(plan)
    ensures (if WithoutChange(plan) then -546 else 0) <= Drift(w, plan) <= DriftLimit(w, s.supply.baseFeeRate, plan)
  {
    hide Sane, PlanUnmap, Unmap, Moderate, ModerateRate, Coherent, UserLedger, CountersInRange, EstimateFee;
    hide PaysChangeAddress;
    ModeratePlan(w, s, a.env, a.params, plan);
    PlanAmount(w, s, a.env, a.params, plan);
  }

  lemma {:induction false} DriftBounds(w: Btc, s: State, actions: seq<Action>)
    requires WellFormedRun(w, s, actions) && LedgerInv(s) && NonNegativeDeposits(actions)
    requires ModerateRate(s) && ModerateRun(w, actions)
    ensures -546 * CountWithoutChange(w, s, actions) <= TotalDrift(w, s, actions) <= TotalLimit(w, s, actions)
    decreases |actions|
  {
    hide Next, Sane, WellFormedAction, NonNegativeOutputs, ModerateAction, Coherent, UserLedger, ModerateRate;
    hide WithoutChange, Drift;
    hide DriftLimit, CompletedPlan, CountersInRange;
    if actions != [] {
      var front, last := actions[..|actions| - 1], actions[|actions| - 1];
      DriftBounds(w, s, front);
      RunKeepsLedger(w, s, front);
      ModerateNoWrap(w, s, front);
      var plan := CompletedPlan(w, Run(w, s, front), last);
      if plan.Some? {
        StepDrift(w, Run(w, s, front), last, plan.value);
      }
    }
  }

  /** How far the registry can be from the supply record after any run within the bounds: below it by
      at most 546 satoshis for each withdrawal without change, above it by at most what those
      withdrawals' fees exceed their estimates by and what was paid to the change address. */
  lemma ReserveWithin(w: Btc, actions: seq<Action>)
    requires WellFormedRun(w, EmptyState(), actions) && NonNegativeDeposits(actions) && ModerateRun(w, actions)
    ensures var s := Run(w, EmptyState(), actions);
      Accounted(s) - 546 * CountWithoutChange(w, EmptyState(), actions)
      <= Reserve(s) <= Accounted(s) + TotalLimit(w, EmptyState(), actions)
  {
    assert ModerateRate(EmptyState());
    hide LedgerInv, Run, TotalDrift, WellFormedRun, Reserve, NonNegativeDeposits, ModerateRun, TotalLimit;
    hide CountWithoutChange;
    hide EmptyState;
    InitialLedger();
    ModerateReserve(w, actions);
    DriftBounds(w, EmptyState(), actions);
  }
}
