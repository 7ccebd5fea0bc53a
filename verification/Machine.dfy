// The contract as a state machine (main.go): its actions, their all-or-nothing
// execution, and what holds over every run.

module Machine {
  import opened Wrappers
  import opened Int64
  import opened Bytes
  import opened Types
  import opened World
  import opened Accounts
  import opened Spend
  import opened State
  import opened Promotion
  import opened Unmapping
  import opened Mapping
  import opened Crediting
  import opened Blocklist
  import Pools

  datatype Action =
    | MapAction(req: MapRequest)
    | UnmapAction(env: Env, params: TransferParams)
    | TransferAction(env: Env, params: TransferParams)
    | AddBlocksAction(blocksHex: string, latestFee: Int64)
    | SeedBlocksAction(headerHex: string, height: Uint32, allowReseed: bool)
    | RegisterRouterAction(routerId: Bytes, testnet: bool)

  ghost predicate WellFormedAction(w: Btc, a: Action) {
    a.MapAction? ==> WellFormed(w, a.req)
  }

  function Step(w: Btc, s: State, a: Action): (r: Result<State>)
    requires Sane(w) && CountersInRange(s) && WellFormedAction(w, a)
  {
    match a
    case MapAction(req) => MapTx(w, s, req, false)
    case UnmapAction(env, p) => if |p.to| < 26 then Err(ErrInput) else Unmap(w, s, env, p)
    case TransferAction(env, p) =>
      var b :- Transfer(w, env, s.balances, p);
      Ok(s.(balances := b))
    case AddBlocksAction(blocksHex, latestFee) => AddBlocks(w, s, blocksHex, latestFee)
    case SeedBlocksAction(headerHex, height, allowReseed) => SeedBlocks(s, headerHex, height, allowReseed)
    case RegisterRouterAction(routerId, testnet) => Ok(RegisterRouter(s, routerId, testnet))
  }

  /** The counters stay in their pools whatever a call does. */
  lemma StepCounters(w: Btc, s: State, a: Action)
    requires Sane(w) && CountersInRange(s) && WellFormedAction(w, a)
    ensures var r := Step(w, s, a); r.Ok? ==> CountersInRange(r.value)
  {
    var r := Step(w, s, a);
    if r.Ok? {
      match a
      case MapAction(req) => MapCounters(w, s, req, r.value);
      case UnmapAction(env, p) => UnmapCounters(w, s, env, p, r.value);
      case _ =>
    }
  }

  lemma UnmapCounters(w: Btc, s: State, env: Env, p: TransferParams, s': State)
    requires Sane(w) && CountersInRange(s) && Unmap(w, s, env, p) == Ok(s')
    ensures CountersInRange(s')
  {
    hide PlanUnmap, ExecuteUnmap, AddChange, Sane, OutputsPaying, Slots;
    var plan := PlanUnmap(w, s, env, p).value;
    var balances, found, s1 := UnmapStages(w, s, env, p, plan, s');
    var slots := Slots(found, |plan.spend.tx.txOut| - 1);
    AddChangeKeeps(s.(balances := balances), slots);
    AddChangeCounters(s.(balances := balances), slots);
    UnmapOther(w, s, env, p, plan, s');
  }

  lemma {:induction false} AddChangeCounters(s: State, slots: seq<Option<Utxo>>)
    requires CountersInRange(s) && StorableSlots(slots) && AddChange(s, slots).Ok?
    ensures CountersInRange(AddChange(s, slots).value)
    decreases |slots|
  {
    if slots != [] {
      var a := Pools.AllocateUnconfirmed(s.unconfirmedNextId, s.utxos.Keys).value;
      AddChangeCounters(WithChange(s, a, slots[0].value), slots[1..]);
    }
  }

  lemma MapCounters(w: Btc, s: State, req: MapRequest, s': State)
    requires CountersInRange(s) && WellFormed(w, req) && MapTx(w, s, req, false) == Ok(s')
    ensures CountersInRange(s')
  {
    hide MapTx, WellFormed, UpdateUtxoSpends, Slots, MatchingOutputs, TxID, VerifyTransaction;
    var slots, s1, promoted := MapStages(w, s, req, s');
    CreditCounters(w, Progress(s1, 0), req, slots, 0);
    hide CreditAll;
  }

  lemma {:induction false} CreditCounters(w: Btc, p: Progress, req: MapRequest, slots: seq<Option<Utxo>>, i: nat)
    requires i <= |slots| && Ready(p.state, slots)
    ensures var r := CreditAll(w, p, req, slots, i, false); r.Ok? ==> CountersInRange(r.value.state)
    decreases |slots| - i
  {
    hide CreditOne;
    if i < |slots| {
      assert [slots[i]][0] == slots[i];
      var r := CreditOne(w, p, req, i, slots[i], false);
      if r.Ok? {
        CreditCounters(w, r.value, req, slots, i + 1);
      }
    }
  }

  /** The host discards the writes of a call that returns an error. */
  function Next(w: Btc, s: State, a: Action): (s': State)
    requires Sane(w) && CountersInRange(s) && WellFormedAction(w, a)
    ensures CountersInRange(s')
  {
    StepCounters(w, s, a);
    var r := Step(w, s, a);
    if r.Ok? then r.value else s
  }

  ghost predicate WellFormedRun(w: Btc, s: State, actions: seq<Action>) {
    Sane(w) && CountersInRange(s) && forall i :: 0 <= i < |actions| ==> WellFormedAction(w, actions[i])
  }

  function Run(w: Btc, s: State, actions: seq<Action>): (s': State)
    requires WellFormedRun(w, s, actions)
    ensures CountersInRange(s')
    decreases |actions|
  {
    if actions == [] then s
    else Next(w, Run(w, s, actions[..|actions| - 1]), actions[|actions| - 1])
  }

  /** The address check of the withdrawal entry point comes before everything else. */
  lemma ShortAddressRefused(w: Btc, s: State, env: Env, p: TransferParams)
    requires Sane(w) && CountersInRange(s)
    ensures |p.to| < 26 ==> Step(w, s, UnmapAction(env, p)) == Err(ErrInput) && Next(w, s, UnmapAction(env, p)) == s
    ensures Step(w, s, UnmapAction(env, p)).Ok? <==> |p.to| >= 26 && Unmap(w, s, env, p).Ok?
  {
    hide Unmap, Sane;
  }
}
