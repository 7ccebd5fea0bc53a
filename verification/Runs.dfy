// What holds over every run of the contract.

module Runs {
  import opened Wrappers
  import opened Int64
  import opened Keys
  import opened World
  import opened Accounts
  import opened Registry
  import opened State
  import opened Unmapping
  import opened Mapping
  import opened Crediting
  import opened Blocklist
  import opened Machine

  // ---------------------------------------------------------------- premises about Bitcoin

  /** Bitcoin accepts no negative output: what the deposit calls of a run bring in. */
  ghost predicate NonNegativeDeposits(actions: seq<Action>) {
    forall i :: 0 <= i < |actions| && actions[i].MapAction? ==> NonNegativeOutputs(actions[i].req.tx)
  }

  /** A transaction id commits to the transaction's outputs: `out` is the output an outpoint names. */
  ghost predicate OutputsAre(w: Btc, tx: MsgTx, out: Outpoint -> TxOut) {
    |tx.txOut| <= 0x1_0000_0000 && forall i :: 0 <= i < |tx.txOut| ==> tx.txOut[i] == out(Outpoint(TxID(w, tx), i))
  }

  ghost predicate DepositsAre(w: Btc, actions: seq<Action>, out: Outpoint -> TxOut) {
    forall i :: 0 <= i < |actions| && actions[i].MapAction? ==> OutputsAre(w, actions[i].req.tx, out)
  }

  ghost function ValueIn(out: Outpoint -> TxOut): Outpoint -> int {
    (o: Outpoint) => out(o).value
  }

  // ---------------------------------------------------------------- ledger invariants

  /** Everything but the pending list, which needs fresh transaction ids. */
  ghost predicate LedgerInv(s: State) {
    CountersInRange(s) && Coherent(s) && UserLedger(s)
  }

  /** The plan of a withdrawal that completes. */
  function CompletedPlan(w: Btc, s: State, a: Action): (plan: Option<Plan>)
    requires Sane(w) && CountersInRange(s) && WellFormedAction(w, a)
  {
    if a.UnmapAction? && Step(w, s, a).Ok? then
      var plan := PlanUnmap(w, s, a.env, a.params);
      if plan.Ok? then Some(plan.value) else None
    else None
  }

  lemma UnmapCompletes(w: Btc, s: State, a: Action) returns (plan: Plan)
    requires Sane(w) && CountersInRange(s) && WellFormedAction(w, a) && a.UnmapAction? && Step(w, s, a).Ok?
    ensures CompletedPlan(w, s, a) == Some(plan)
    ensures Completes(w, s, a.env, a.params, plan, Next(w, s, a))
  {
    hide Sane, PlanUnmap, ExecuteUnmap;
    plan := PlanUnmap(w, s, a.env, a.params).value;
  }

  /** Some choice of outpoint values agrees with one transaction. */
  lemma ValuesOf(w: Btc, tx: MsgTx) returns (value: Outpoint -> int)
    requires |tx.txOut| <= 0x1_0000_0000
    ensures CommitsTo(w, tx, value)
  {
    var txId := TxID(w, tx);
    value := (o: Outpoint) => if o.txId == txId && o.vout < |tx.txOut| then tx.txOut[o.vout].value else 0;
    hide TxID;
  }

  lemma TransferKeepsLedger(w: Btc, s: State, env: Env, p: TransferParams, b: Balances)
    requires LedgerInv(s) && Transfer(w, env, s.balances, p) == Ok(b)
    ensures LedgerInv(s.(balances := b))
  {
    hide Transfer, SumBalances;
    TransferEffect(w, env, s.balances, p);
  }

  lemma RateKeepsLedger(s: State, s': State)
    requires LedgerInv(s)
    requires s' == s.(headers := s'.headers, lastHeight := s'.lastHeight, router := s'.router,
                      supply := s.supply.(baseFeeRate := s'.supply.baseFeeRate))
    ensures LedgerInv(s') && Reserve(s') == Reserve(s) && Accounted(s') == Accounted(s)
  {
  }

  predicate Administrative(a: Action) {
    a.AddBlocksAction? || a.SeedBlocksAction? || a.RegisterRouterAction?
  }

  /** Administrative calls touch headers, fee rate and router id. */
  lemma AdministrativeKeeps(w: Btc, s: State, a: Action, s': State)
    requires Sane(w) && CountersInRange(s) && WellFormedAction(w, a) && Administrative(a)
    requires Step(w, s, a) == Ok(s')
    ensures s' == s.(headers := s'.headers, lastHeight := s'.lastHeight, router := s'.router,
                     supply := s.supply.(baseFeeRate := s'.supply.baseFeeRate))
    ensures a.AddBlocksAction? ==> s'.router == s.router && s'.supply.baseFeeRate == a.latestFee
    ensures !a.AddBlocksAction? ==> s'.supply == s.supply
    ensures a.RegisterRouterAction? ==> s'.headers == s.headers && s'.lastHeight == s.lastHeight
  {
    hide HandleAddBlocks, HeadersOfHex, Sane;
  }

  /** Every call keeps the ledger invariants, completed or discarded. */
  lemma StepKeepsLedger(w: Btc, s: State, a: Action)
    requires Sane(w) && WellFormedAction(w, a) && LedgerInv(s)
    requires a.MapAction? ==> NonNegativeOutputs(a.req.tx)
    ensures LedgerInv(Next(w, s, a))
  {
    hide Sane, MapTx, WellFormed, Transfer, AddBlocks, Unmap, Coherent, UserLedger, NonNegativeOutputs, Mapped;
    if Step(w, s, a).Ok? {
      var s' := Step(w, s, a).value;
      match a
      case MapAction(req) =>
        WellFormedBound(w, req);
        var value := ValuesOf(w, req.tx);
        MapEffect(w, s, req, s', value);
        MappedLedger(s, s', TxOutpoints(w, req.tx), value);
      case UnmapAction(env, p) =>
        var plan := UnmapCompletes(w, s, a);
        UnmapKeepsLedger(w, s, env, p, plan, s');
      case TransferAction(env, p) => TransferKeepsLedger(w, s, env, p, s'.balances);
      case _ =>
        AdministrativeKeeps(w, s, a, s');
        RateKeepsLedger(s, s');
    }
  }

  lemma WellFormedBound(w: Btc, req: MapRequest)
    requires WellFormed(w, req)
    ensures |req.tx.txOut| <= 0x1_0000_0000
  {
  }

  lemma MappedLedger(s: State, s': State, outputs: set<Outpoint>, value: Outpoint -> int)
    requires Mapped(s, s', outputs, value)
    ensures LedgerInv(s') && Reserve(s') - Accounted(s') == Reserve(s) - Accounted(s)
  {
  }

  lemma UnmapKeepsLedger(w: Btc, s: State, env: Env, p: TransferParams, plan: Plan, s': State)
    requires Completes(w, s, env, p, plan, s') && LedgerInv(s)
    ensures LedgerInv(s')
  {
    hide Completes, Coherent, UserLedger, Replaced;
    var found, added := UnmapRegistry(w, s, env, p, plan, s');
    UnmapUserLedger(w, s, env, p, plan, s');
  }

  /** User ledger and registry coherence over every run: balances stay positive and add up to the
      user supply, which stays the active supply; the registry stays in step with the records. */
  lemma {:induction false} RunKeepsLedger(w: Btc, s: State, actions: seq<Action>)
    requires WellFormedRun(w, s, actions) && LedgerInv(s) && NonNegativeDeposits(actions)
    ensures LedgerInv(Run(w, s, actions))
    decreases |actions|
  {
    hide LedgerInv, Next, Sane, WellFormedAction, NonNegativeOutputs;
    if actions != [] {
      var front := actions[..|actions| - 1];
      RunKeepsLedger(w, s, front);
      StepKeepsLedger(w, Run(w, s, front), actions[|actions| - 1]);
    }
  }

  // ---------------------------------------------------------------- reserve ledger

  /** No completed withdrawal of the run wraps an int64. */
  ghost predicate NoWrapRun(w: Btc, s: State, actions: seq<Action>)
    requires WellFormedRun(w, s, actions)
    decreases |actions|
  {
    actions == [] ||
    var front := actions[..|actions| - 1];
    var plan := CompletedPlan(w, Run(w, s, front), actions[|actions| - 1]);
    NoWrapRun(w, s, front) && (plan.Some? ==> NoWrap(plan.value))
  }

  function DriftOf(w: Btc, plan: Option<Plan>): int {
    if plan.Some? then Drift(w, plan.value) else 0
  }

  function TotalDrift(w: Btc, s: State, actions: seq<Action>): int
    requires WellFormedRun(w, s, actions)
    decreases |actions|
  {
    if actions == [] then 0 else
    var front := actions[..|actions| - 1];
    TotalDrift(w, s, front) + DriftOf(w, CompletedPlan(w, Run(w, s, front), actions[|actions| - 1]))
  }

  lemma StepReserve(w: Btc, s: State, a: Action)
    requires Sane(w) && WellFormedAction(w, a) && LedgerInv(s)
    requires a.MapAction? ==> NonNegativeOutputs(a.req.tx)
    requires var plan := CompletedPlan(w, s, a); plan.Some? ==> NoWrap(plan.value)
    ensures var s' := Next(w, s, a);
      Reserve(s') - Accounted(s') == Reserve(s) - Accounted(s) + DriftOf(w, CompletedPlan(w, s, a))
  {
    hide Sane, MapTx, WellFormed, Transfer, AddBlocks, Unmap, Coherent, UserLedger, NonNegativeOutputs, Mapped;
    hide PlanUnmap;
    hide NoWrap, Drift, SumAmounts;
    if Step(w, s, a).Ok? {
      var s' := Step(w, s, a).value;
      match a
      case MapAction(req) =>
        WellFormedBound(w, req);
        var value := ValuesOf(w, req.tx);
        MapEffect(w, s, req, s', value);
        MappedLedger(s, s', TxOutpoints(w, req.tx), value);
      case UnmapAction(env, p) =>
        var plan := UnmapCompletes(w, s, a);
        UnmapReserve(w, s, env, p, plan, s');
      case TransferAction(env, p) =>
      case _ => AdministrativeKeeps(w, s, a, s');
    }
  }

  /** The reserve ledger over every run without overflow: satoshis in the registry equal active plus
      fee supply plus the accumulated drift of the withdrawals - for each one without change, the
      fee reported less the leftover given away; for each one to the change address, its amount. */
  lemma {:induction false} RunReserve(w: Btc, s: State, actions: seq<Action>)
    requires WellFormedRun(w, s, actions) && LedgerInv(s) && NonNegativeDeposits(actions) && NoWrapRun(w, s, actions)
    ensures var s' := Run(w, s, actions);
      Reserve(s') - Accounted(s') == Reserve(s) - Accounted(s) + TotalDrift(w, s, actions)
    decreases |actions|
  {
    hide LedgerInv, Next, Sane, WellFormedAction, NonNegativeOutputs, CompletedPlan, Reserve, Accounted, NoWrap;
    hide DriftOf;
    if actions != [] {
      var front := actions[..|actions| - 1];
      RunReserve(w, s, front);
      RunKeepsLedger(w, s, front);
      StepReserve(w, Run(w, s, front), actions[|actions| - 1]);
    }
  }

  lemma InitialLedger()
    ensures LedgerInv(EmptyState()) && Reserve(EmptyState()) == 0 && Accounted(EmptyState()) == 0
    ensures EmptyState().observed == {} && EmptyState().supply.userSupply == 0
  {
    InitialInv();
  }

  /** The same from an empty store. */
  lemma ReserveFromScratch(w: Btc, actions: seq<Action>)
    requires WellFormedRun(w, EmptyState(), actions) && NonNegativeDeposits(actions)
      && NoWrapRun(w, EmptyState(), actions)
    ensures var s' := Run(w, EmptyState(), actions);
      Reserve(s') == s'.supply.activeSupply + s'.supply.feeSupply + TotalDrift(w, EmptyState(), actions)
  {
    hide LedgerInv, Run, TotalDrift, NoWrapRun, WellFormedRun, Reserve, NonNegativeDeposits, EmptyState;
    InitialLedger();
    RunReserve(w, EmptyState(), actions);
  }

  // ---------------------------------------------------------------- crediting at most once

  /** What the senders paid over a run. */
  function Withdrawn(w: Btc, s: State, actions: seq<Action>): int
    requires WellFormedRun(w, s, actions)
    decreases |actions|
  {
    if actions == [] then 0 else
    var front := actions[..|actions| - 1];
    Withdrawn(w, s, front) + FinalOf(CompletedPlan(w, Run(w, s, front), actions[|actions| - 1]))
  }

  function FinalOf(plan: Option<Plan>): int {
    if plan.Some? then plan.value.FinalAmt() else 0
  }

  lemma StepMints(w: Btc, s: State, a: Action, out: Outpoint -> TxOut)
    requires Sane(w) && WellFormedAction(w, a) && LedgerInv(s)
    requires a.MapAction? ==> NonNegativeOutputs(a.req.tx) && OutputsAre(w, a.req.tx, out)
    ensures var s' := Next(w, s, a);
      && s.observed <= s'.observed
      && SumValues(s'.observed, ValueIn(out)) - s'.supply.userSupply
         == SumValues(s.observed, ValueIn(out)) - s.supply.userSupply + FinalOf(CompletedPlan(w, s, a))
  {
    hide Sane, MapTx, WellFormed, Transfer, AddBlocks, Unmap, Coherent, UserLedger, NonNegativeOutputs, PlanUnmap;
    hide OutputsAre;
    hide SumValues, ValueIn;
    if Step(w, s, a).Ok? {
      var s' := Step(w, s, a).value;
      match a
      case MapAction(req) =>
        WellFormedBound(w, req);
        OutputsCommit(w, req.tx, out);
        MapEffect(w, s, req, s', ValueIn(out));
      case UnmapAction(env, p) =>
        var plan := UnmapCompletes(w, s, a);
        UnmapOther(w, s, env, p, plan, s');
      case TransferAction(env, p) =>
      case _ => AdministrativeKeeps(w, s, a, s');
    }
  }

  lemma OutputsCommit(w: Btc, tx: MsgTx, out: Outpoint -> TxOut)
    requires OutputsAre(w, tx, out)
    ensures CommitsTo(w, tx, ValueIn(out))
  {
    hide TxID;
  }

  /** At-most-once crediting over every run: the observed set only grows, and the user supply is
      always the value of the outpoints observed - each counted once, however often it was
      submitted - less what was withdrawn. */
  lemma {:induction false} RunMints(w: Btc, s: State, actions: seq<Action>, out: Outpoint -> TxOut)
    requires WellFormedRun(w, s, actions) && LedgerInv(s) && NonNegativeDeposits(actions)
      && DepositsAre(w, actions, out)
    ensures var s' := Run(w, s, actions);
      && s.observed <= s'.observed
      && SumValues(s'.observed, ValueIn(out)) - s'.supply.userSupply
         == SumValues(s.observed, ValueIn(out)) - s.supply.userSupply + Withdrawn(w, s, actions)
    decreases |actions|
  {
    hide LedgerInv, Next, Sane, WellFormedAction, NonNegativeOutputs, CompletedPlan, FinalOf, OutputsAre, SumValues;
    hide ValueIn;
    if actions != [] {
      var front := actions[..|actions| - 1];
      RunMints(w, s, front, out);
      RunKeepsLedger(w, s, front);
      StepMints(w, Run(w, s, front), actions[|actions| - 1], out);
    }
  }

  lemma SupplyFromScratch(w: Btc, actions: seq<Action>, out: Outpoint -> TxOut)
    requires WellFormedRun(w, EmptyState(), actions) && NonNegativeDeposits(actions) && DepositsAre(w, actions, out)
    ensures var s' := Run(w, EmptyState(), actions);
      SumBalances(s'.balances) == SumValues(s'.observed, ValueIn(out)) - Withdrawn(w, EmptyState(), actions)
  {
    hide Run, Withdrawn, WellFormedRun, NonNegativeDeposits, DepositsAre, ValueIn, Coherent, CountersInRange;
    hide EmptyState;
    InitialLedger();
    RunKeepsLedger(w, EmptyState(), actions);
    RunMints(w, EmptyState(), actions, out);
    assert SumValues({}, ValueIn(out)) == 0;
  }

  // ---------------------------------------------------------------- pending list

  /** Every completed withdrawal of the run has a transaction id that is not pending already. */
  ghost predicate FreshPending(w: Btc, s: State, actions: seq<Action>)
    requires WellFormedRun(w, s, actions)
    decreases |actions|
  {
    actions == [] ||
    var front := actions[..|actions| - 1];
    var before := Run(w, s, front);
    var plan := CompletedPlan(w, before, actions[|actions| - 1]);
    FreshPending(w, s, front) && (plan.Some? ==> TxID(w, plan.value.spend.tx) !in before.txSpends)
  }

  lemma StepKeepsPending(w: Btc, s: State, a: Action)
    requires Sane(w) && WellFormedAction(w, a) && LedgerInv(s) && SpendsListed(s)
    requires a.MapAction? ==> NonNegativeOutputs(a.req.tx)
    requires var plan := CompletedPlan(w, s, a); plan.Some? ==> TxID(w, plan.value.spend.tx) !in s.txSpends
    ensures SpendsListed(Next(w, s, a))
  {
    hide Sane, MapTx, WellFormed, Transfer, AddBlocks, Unmap, Coherent, UserLedger, NonNegativeOutputs, Mapped;
    hide PlanUnmap, TxID;
    if Step(w, s, a).Ok? {
      var s' := Step(w, s, a).value;
      match a
      case MapAction(req) =>
        WellFormedBound(w, req);
        var value := ValuesOf(w, req.tx);
        MapEffect(w, s, req, s', value);
      case UnmapAction(env, p) =>
        var plan := UnmapCompletes(w, s, a);
        UnmapSpendsListed(w, s, env, p, plan, s');
      case TransferAction(env, p) =>
      case _ => AdministrativeKeeps(w, s, a, s');
    }
  }

  /** The pending list names exactly the pending spends, once each, over every such run. */
  lemma {:induction false} RunKeepsPending(w: Btc, s: State, actions: seq<Action>)
    requires WellFormedRun(w, s, actions) && Inv(s) && NonNegativeDeposits(actions) && FreshPending(w, s, actions)
    ensures Inv(Run(w, s, actions))
    decreases |actions|
  {
    hide Next, Sane, WellFormedAction, NonNegativeOutputs, CompletedPlan, TxID, Coherent, UserLedger, CountersInRange;
    hide SpendsListed;
    RunKeepsLedger(w, s, actions);
    if actions != [] {
      var front := actions[..|actions| - 1];
      RunKeepsPending(w, s, front);
      StepKeepsPending(w, Run(w, s, front), actions[|actions| - 1]);
    }
  }

  // ---------------------------------------------------------------- header chain

  /** The calls that break the chain: an accepted addBlocks call whose headers do not link up from
      the stored tip, and a second seed. */
  ghost predicate BreaksChain(w: Btc, s: State, a: Action) {
    match a
    case AddBlocksAction(blocksHex, latestFee) =>
      && AddBlocks(w, s, blocksHex, latestFee).Ok? && HeadersOfHex(blocksHex).Ok? && StoredTip(s)
      && !Links(w, s.headers[s.lastHeight.value], HeadersOfHex(blocksHex).value)
    case SeedBlocksAction(_, _, allowReseed) => allowReseed && s.lastHeight.Some?
    case _ => false
  }

  /** The header at the stored height is there. */
  ghost predicate StoredTip(s: State) {
    s.lastHeight.Some? && s.lastHeight.value in s.headers && |s.headers[s.lastHeight.value]| >= HEADER_SIZE
  }

  ghost predicate ChainUnbroken(w: Btc, s: State, actions: seq<Action>)
    requires WellFormedRun(w, s, actions)
    decreases |actions|
  {
    actions == [] ||
    var front := actions[..|actions| - 1];
    ChainUnbroken(w, s, front) && !BreaksChain(w, Run(w, s, front), actions[|actions| - 1])
  }

  /** Headers that a call adds. */
  ghost function HeadersAdded(w: Btc, s: State, a: Action): nat
    requires Sane(w) && CountersInRange(s) && WellFormedAction(w, a)
  {
    if a.AddBlocksAction? && Step(w, s, a).Ok? && HeadersOfHex(a.blocksHex).Ok?
    then |HeadersOfHex(a.blocksHex).value| else 0
  }

  /** s' keeps every header of s. */
  ghost predicate KeepsHeaders(s: State, s': State) {
    forall h :: h in s.headers ==> h in s'.headers && s'.headers[h] == s.headers[h]
  }

  /** Deposits, withdrawals, transfers and the router id leave the chain alone. */
  lemma StepLeavesChain(w: Btc, s: State, a: Action)
    requires Sane(w) && CountersInRange(s) && WellFormedAction(w, a) && !a.AddBlocksAction? && !a.SeedBlocksAction?
    ensures var s' := Next(w, s, a); s'.headers == s.headers && s'.lastHeight == s.lastHeight
  {
    hide Sane, MapTx, WellFormed, Transfer, AddBlocks, Unmap, PlanUnmap;
    if Step(w, s, a).Ok? {
      var s' := Step(w, s, a).value;
      match a
      case MapAction(req) => MapFrame(w, s, req, s');
      case UnmapAction(env, p) =>
        var plan := UnmapCompletes(w, s, a);
        UnmapOther(w, s, env, p, plan, s');
      case TransferAction(_, _) =>
      case RegisterRouterAction(_, _) =>
    }
  }

  lemma StepKeepsChain(w: Btc, s: State, a: Action, seed: Uint32)
    requires Sane(w) && CountersInRange(s) && WellFormedAction(w, a) && Chain(w, s, seed) && !BreaksChain(w, s, a)
    ensures var s' := Next(w, s, a);
      Chain(w, s', seed) && KeepsHeaders(s, s') && s'.lastHeight.value == s.lastHeight.value + HeadersAdded(w, s, a)
  {
    hide Sane, MapTx, WellFormed, Transfer, Unmap, HeadersOfHex, HandleAddBlocks, Extend, ChainBetween, Links;
    hide AddBlocks;
    if Step(w, s, a).Ok? {
      match a
      case AddBlocksAction(blocksHex, fee) =>
        var reached := AddBlocksEffect(w, s, blocksHex, fee, Step(w, s, a).value, seed);
        LinkedHeaders(w, s, blocksHex, fee, seed);
      case SeedBlocksAction(_, _, _) =>
      case _ => StepLeavesChain(w, s, a);
    }
  }

  /** An accepted call whose headers link up met no error. */
  lemma LinkedHeaders(w: Btc, s: State, blocksHex: string, fee: Int64, seed: Uint32)
    requires Chain(w, s, seed) && AddBlocks(w, s, blocksHex, fee).Ok?
      && !BreaksChain(w, s, AddBlocksAction(blocksHex, fee))
    ensures HandleAddBlocks(w, s.headers, s.lastHeight, HeadersOfHex(blocksHex).value).failure == None
  {
    hide HeadersOfHex, ChainBetween, Links, Extend;
    var tip := s.headers[s.lastHeight.value];
    ExtendLinks(w, s.headers, s.lastHeight.value, tip, HeadersOfHex(blocksHex).value);
  }

  ghost function TotalAdded(w: Btc, s: State, actions: seq<Action>): nat
    requires WellFormedRun(w, s, actions)
    decreases |actions|
  {
    if actions == [] then 0 else
    var front := actions[..|actions| - 1];
    TotalAdded(w, s, front) + HeadersAdded(w, Run(w, s, front), actions[|actions| - 1])
  }

  /** Over every run whose accepted addBlocks calls link up, and without a second seed, a seeded chain
      stays one: all heights from the seed to the last are stored and linked, stored headers are never
      rewritten, and the last height grows by exactly the headers added. */
  lemma {:induction false} RunKeepsChain(w: Btc, s: State, actions: seq<Action>, seed: Uint32)
    requires WellFormedRun(w, s, actions) && Chain(w, s, seed) && ChainUnbroken(w, s, actions)
    ensures var s' := Run(w, s, actions);
      Chain(w, s', seed) && KeepsHeaders(s, s') && s'.lastHeight.value == s.lastHeight.value + TotalAdded(w, s, actions)
    decreases |actions|
  {
    hide Next, Sane, WellFormedAction, ChainBetween, BreaksChain, HeadersAdded;
    if actions != [] {
      var front := actions[..|actions| - 1];
      RunKeepsChain(w, s, front, seed);
      StepKeepsChain(w, Run(w, s, front), actions[|actions| - 1], seed);
    }
  }

  /** Not seeded yet, or a chain from some seed. */
  ghost predicate Anchored(w: Btc, s: State) {
    (s.headers == map[] && s.lastHeight == None) || exists seed: Uint32 :: Chain(w, s, seed)
  }

  lemma StepKeepsAnchored(w: Btc, s: State, a: Action)
    requires Sane(w) && CountersInRange(s) && WellFormedAction(w, a) && Anchored(w, s) && !BreaksChain(w, s, a)
    ensures Anchored(w, Next(w, s, a)) && KeepsHeaders(s, Next(w, s, a))
  {
    hide Sane, MapTx, WellFormed, Transfer, Unmap, HeadersOfHex, ChainBetween, Next, Links;
    if s.lastHeight.Some? {
      var seed: Uint32 :| Chain(w, s, seed);
      StepKeepsChain(w, s, a, seed);
    } else if a.SeedBlocksAction? || a.AddBlocksAction? {
      FirstSeed(w, s, a);
    } else {
      StepLeavesChain(w, s, a);
    }
  }

  lemma FirstSeed(w: Btc, s: State, a: Action)
    requires Sane(w) && CountersInRange(s) && WellFormedAction(w, a) && s.headers == map[] && s.lastHeight == None
    requires a.SeedBlocksAction? || a.AddBlocksAction?
    ensures Anchored(w, Next(w, s, a))
  {
    hide Sane, Chain;
    if a.SeedBlocksAction? && Step(w, s, a).Ok? {
      SeedStartsChain(w, s, a.headerHex, a.height, a.allowReseed, Next(w, s, a));
    }
  }

  /** From an empty store: whenever the contract is seeded, at most once, and while every accepted
      addBlocks call links up, what is stored is a chain ending at the last height. */
  lemma {:induction false} ChainFromScratch(w: Btc, actions: seq<Action>)
    requires WellFormedRun(w, EmptyState(), actions) && ChainUnbroken(w, EmptyState(), actions)
    ensures Anchored(w, Run(w, EmptyState(), actions))
    decreases |actions|
  {
    hide Next, Sane, WellFormedAction, ChainBetween, BreaksChain, Chain;
    if actions != [] {
      var front := actions[..|actions| - 1];
      ChainFromScratch(w, front);
      StepKeepsAnchored(w, Run(w, EmptyState(), front), actions[|actions| - 1]);
    }
  }

  // ---------------------------------------------------------------- work and router

  /** The heights that seed calls set during a run. */
  ghost function SeededHeights(w: Btc, s: State, actions: seq<Action>): set<Uint32>
    requires WellFormedRun(w, s, actions)
    decreases |actions|
  {
    if actions == [] then {} else
    var front, last := actions[..|actions| - 1], actions[|actions| - 1];
    SeededHeights(w, s, front)
    + if last.SeedBlocksAction? && Step(w, Run(w, s, front), last).Ok? then {last.height} else {}
  }

  /** Every stored header was seeded or passed the work check. */
  ghost predicate WorkedOrSeeded(w: Btc, headers: Headers, seeds: set<Uint32>) {
    forall h: Uint32 :: h in headers ==> h in seeds || w.passesPoW(headers[h])
  }

  lemma AddedHeadersPass(w: Btc, s: State, blocksHex: string, fee: Int64, s': State, seeds: set<Uint32>)
    requires AddBlocks(w, s, blocksHex, fee) == Ok(s') && WorkedOrSeeded(w, s.headers, seeds)
    ensures WorkedOrSeeded(w, s'.headers, seeds)
  {
    AddBlocksParts(w, s, blocksHex, fee, s');
    hide AddBlocks, HeadersOfHex, Written;
    var k := AddBlocksExact(w, s, blocksHex, fee, s', HeadersOfHex(blocksHex).value, s.lastHeight.value);
  }

  lemma AddBlocksParts(w: Btc, s: State, blocksHex: string, fee: Int64, s': State)
    requires AddBlocks(w, s, blocksHex, fee) == Ok(s')
    ensures HeadersOfHex(blocksHex).Ok? && s.lastHeight.Some?
  {
    hide HeadersOfHex, Extend;
  }

  lemma StepHeadersPass(w: Btc, s: State, a: Action, seeds: set<Uint32>)
    requires Sane(w) && CountersInRange(s) && WellFormedAction(w, a) && WorkedOrSeeded(w, s.headers, seeds)
    ensures WorkedOrSeeded(w, Next(w, s, a).headers,
      seeds + if a.SeedBlocksAction? && Step(w, s, a).Ok? then {a.height} else {})
  {
    hide Sane, MapTx, WellFormed, Transfer, Unmap, AddBlocks;
    if Step(w, s, a).Ok? {
      match a
      case AddBlocksAction(blocksHex, fee) => AddedHeadersPass(w, s, blocksHex, fee, Step(w, s, a).value, seeds);
      case SeedBlocksAction(headerHex, height, allowReseed) => SeedExact(s, headerHex, height, allowReseed);
      case _ => StepLeavesChain(w, s, a);
    }
  }

  /** From an empty store, over every run: each stored header stands at a height that was seeded or passed
      the work check. */
  lemma {:induction false} RunHeadersPass(w: Btc, actions: seq<Action>)
    requires WellFormedRun(w, EmptyState(), actions)
    ensures WorkedOrSeeded(w, Run(w, EmptyState(), actions).headers, SeededHeights(w, EmptyState(), actions))
    decreases |actions|
  {
    hide Next, Sane, WellFormedAction, Step;
    if actions != [] {
      var front := actions[..|actions| - 1];
      RunHeadersPass(w, front);
      StepHeadersPass(w, Run(w, EmptyState(), front), actions[|actions| - 1], SeededHeights(w, EmptyState(), front));
    }
  }

  lemma StepKeepsRouter(w: Btc, s: State, a: Action)
    requires Sane(w) && CountersInRange(s) && WellFormedAction(w, a) && s.router != []
    requires a.RegisterRouterAction? ==> !a.testnet
    ensures Next(w, s, a).router == s.router
  {
    hide Sane, MapTx, WellFormed, Transfer, AddBlocks, Unmap, PlanUnmap;
    if Step(w, s, a).Ok? {
      var s' := Step(w, s, a).value;
      match a
      case MapAction(req) => MapFrame(w, s, req, s');
      case UnmapAction(env, p) =>
        var plan := UnmapCompletes(w, s, a);
        UnmapOther(w, s, env, p, plan, s');
      case AddBlocksAction(_, _) => AdministrativeKeeps(w, s, a, s');
      case _ =>
    }
  }

  /** Off the test networks a router id, once set, never changes. */
  lemma {:induction false} RunKeepsRouter(w: Btc, s: State, actions: seq<Action>)
    requires WellFormedRun(w, s, actions) && s.router != []
    requires forall i :: 0 <= i < |actions| && actions[i].RegisterRouterAction? ==> !actions[i].testnet
    ensures Run(w, s, actions).router == s.router
    decreases |actions|
  {
    hide Next, Sane, WellFormedAction;
    if actions != [] {
      var front := actions[..|actions| - 1];
      RunKeepsRouter(w, s, front);
      StepKeepsRouter(w, Run(w, s, front), actions[|actions| - 1]);
    }
  }
}
