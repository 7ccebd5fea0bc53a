// A run from an empty store - seed, deposit, withdrawal, confirmation - on which
// the premises of every run theorem hold together.

module Scenario {
  import opened Wrappers
  import opened Int64
  import opened Bytes
  import opened Text
  import opened Types
  import opened Keys
  import opened World
  import opened Accounts
  import opened Registry
  import opened Selection
  import opened Spend
  import opened State
  import opened Pools
  import opened Promotion
  import opened Unmapping
  import opened Mapping
  import opened Crediting
  import opened Blocklist
  import opened Machine
  import opened Runs
  import opened Safety
  import opened Bounds
  import opened Amounts
  import opened Confirmation
  import opened Examples
  import opened HeaderFields
  import Proof

  /** A header whose two hashes differ. */
  function Header(): RawHeader {
    HeaderBytes(BlockHeader(4, Repeat(32, 9), Repeat(32, 3), 5, 6, 7))
  }

  function BranchHex(): string {
    EncodeHex(Repeat(32, 0))
  }

  function DepositTx(): MsgTx {
    MsgTx([], [TxOut(3000, DepositBytes())])
  }

  function DepositId(): TxId {
    TxID(ToyWorld(), DepositTx())
  }

  /** Who brings the deposit in: neither its recipient nor anybody with a balance. */
  function Relayer(): Env {
    Env("btc", "relayer", ["relayer"], "relayer", [], [])
  }

  function DepositRequest(): MapRequest {
    MapRequest(Relayer(), DepositTx(), 100, BranchHex(), 0,
               map["deposit" := AddressMetadata("alice", MapDeposit, Repeat(32, 7))], [])
  }

  function Deposited(): StoredUtxo {
    Utxo(DepositId(), 0, 3000, DepositBytes(), Some(Repeat(32, 7)))
  }

  function Withdrawal(): TransferParams {
    TransferParams(FormatUint(2000, 10), SHORT_ADDRESS, "")
  }

  function SpendTransaction(): MsgTx {
    MsgTx([Outpoint(DepositId(), 0)], [TxOut(2000, Repeat(22, 2)), TxOut(1000, ChangeBytes())])
  }

  function ConfirmationRequest(): MapRequest {
    MapRequest(Relayer(), SpendTransaction(), 100, BranchHex(), 0, map[], [])
  }

  // ---------------------------------------------------------------- verification

  lemma OneSibling()
    ensures Proof.ProofOfHex(BranchHex()) == Ok([Repeat(32, 0)])
  {
    hide EncodeHex, DecodeHex, Repeat;
    var bs := Repeat(32, 0);
    DecodeEncodedHex(bs);
    assert bs[32 * 0..32 * 0 + 32] == bs;
    assert Proof.ProofOfHex(BranchHex()).value == [bs];
  }

  lemma HeaderNamesRoot()
    ensures HeaderRoot(Header()) == Repeat(32, 3)
  {
    FieldsRead(ToyWorld(), BlockHeader(4, Repeat(32, 9), Repeat(32, 3), 5, 6, 7));
    hide HeaderBytes, HeaderRoot, ToyWorld, Repeat;
  }

  /** Every transaction proves its place under the header, by way of the one sibling. */
  lemma Accepted(req: MapRequest, headers: Headers)
    requires req.blockHeight == 100 && req.merkleProofHex == BranchHex() && req.txIndex == 0
    requires 100 in headers && headers[100] == Header()
    ensures VerifyTransaction(ToyWorld(), headers, req) == None
  {
    hide BranchHex, Proof.ProofOfHex, Header;
    OneSibling();
    var H, x, sibling := ToyWorld().doubleHash, TxHash(ToyWorld(), req.tx), Repeat(32, 0);
    var siblings: seq<Hash> := [sibling];
    assert Proof.Climb(H, x, 0, siblings) == Repeat(32, 3) by {
      assert siblings[1..] == [] && |Join(x, sibling)| == 64;
    }
    HeaderNamesRoot();
    hide TxHash, Proof.Climb, HeaderRoot, ToyWorld, Repeat;
  }

  // ---------------------------------------------------------------- seed

  function AfterSeed(): State {
    EmptyState().(headers := map[100 := Header()], lastHeight := Some(100))
  }

  function SeedAction(): Action {
    SeedBlocksAction(EncodeHex(Header()), 100, false)
  }

  lemma SeedStep()
    ensures Sane(ToyWorld()) && Step(ToyWorld(), EmptyState(), SeedAction()) == Ok(AfterSeed())
  {
    ToyFacts();
    DecodeEncodedHex(Header());
    hide Sane, ToyWorld, EncodeHex, DecodeHex;
    assert map[][100 := Header()] == map[100 := Header()];
  }

  // ---------------------------------------------------------------- deposit

  function AfterDeposit(): State {
    AfterSeed().(
      utxoList := [UtxoRegistryEntry(64, 3000)],
      confirmedNextId := 65,
      utxos := map[64 := Deposited()],
      observed := {Outpoint(DepositId(), 0)},
      balances := map["alice" := 3000],
      supply := SystemSupply(3000, 3000, 0, 0))
  }

  lemma DepositMatches()
    ensures RegisteredAddress(ToyWorld(), DepositTx().txOut[0], DepositRequest().registry) == Some("deposit")
  {
    ToyFacts();
    hide ToyWorld, Repeat, TxID;
    assert FirstRegistered(["deposit"], DepositRequest().registry) == Some("deposit");
  }

  lemma DepositWellFormed()
    ensures WellFormed(ToyWorld(), DepositRequest())
  {
    hide ToyWorld, Repeat, RegisteredAddress;
  }

  lemma DepositIndexed()
    ensures IndexOutputs(ToyWorld(), DepositRequest().registry, DepositTx()) == Ok([Some(Deposited())])
  {
    DepositMatches();
    hide ToyWorld, Repeat, TxID, RegisteredAddress;
    var registry, outs := DepositRequest().registry, DepositTx().txOut;
    assert registry["deposit"].tag == Repeat(32, 7);
    hide DepositRequest;
    assert outs[..0] == [] && MatchingOutputs(ToyWorld(), registry, DepositId(), outs[..0]) == [];
    var found := MatchingOutputs(ToyWorld(), registry, DepositId(), outs);
    assert found == [Deposited()];
    assert |registry| == 1 by { OneDepositAddress(); }
    assert Slots(found, 1) == [Some(Deposited())];
  }

  lemma OneDepositAddress()
    ensures |DepositRequest().registry| == 1
  {
    hide Repeat;
  }

  /** After the credit, before the supply update. */
  function BeforeSupply(): State {
    AfterDeposit().(supply := SystemSupply(0, 0, 0, 0))
  }

  lemma Registered()
    ensures Deposited().Storable()
    ensures Register(AfterSeed(), Allocation(64, 65), Deposited()).(balances := map["alice" := 3000]) == BeforeSupply()
  {
    hide Repeat, TxID, Header;
    assert AfterSeed().observed + {Outpoint(DepositId(), 0)} == {Outpoint(DepositId(), 0)};
    assert AfterSeed().utxos[64 := Deposited()] == map[64 := Deposited()];
  }

  lemma FirstSlot()
    ensures AllocateConfirmed(64, {}) == Ok(Allocation(64, 65))
  {
  }

  lemma AliceCredited(s: State)
    requires s.balances == map[]
    ensures CreditBalances(ToyWorld(), s, DepositRequest(), 0, AddressMetadata("alice", MapDeposit, Repeat(32, 7)),
      3000, false)
         == Ok(map["alice" := 3000])
  {
    hide Repeat, ToyWorld;
    assert SetBal(map[], "alice", 3000) == map["alice" := 3000];
  }

  lemma CreditOneFresh(w: Btc, p: Progress, req: MapRequest, i: nat, u: Utxo, address: string, a: Allocation,
                       b: Balances)
    requires CountersInRange(p.state) && u.Storable() && InInt64(p.total + u.amount)
    requires w.addrsOf(u.pkScript) == Some([address]) && address in req.registry && OutpointOf(u) !in p.state.observed
    requires AllocateConfirmed(p.state.confirmedNextId, p.state.utxos.Keys) == Ok(a)
    requires CreditBalances(w, Register(p.state, a, u), req, i, req.registry[address], u.amount, false) == Ok(b)
    ensures Ready(p.state, [Some(u)])
    ensures CreditOne(w, p, req, i, Some(u), false)
         == Ok(Progress(Register(p.state, a, u).(balances := b), p.total + u.amount))
  {
    hide Allocate, CreditBalances;
  }

  lemma DepositCredited()
    ensures Ready(AfterSeed(), [Some(Deposited())])
    ensures CreditOne(ToyWorld(), Progress(AfterSeed(), 0), DepositRequest(), 0, Some(Deposited()), false)
         == Ok(Progress(BeforeSupply(), 3000))
  {
    ToyFacts();
    Registered();
    FirstSlot();
    AliceCredited(Register(AfterSeed(), Allocation(64, 65), Deposited()));
    hide ToyWorld, Repeat, TxID, Header, CreditBalances, Allocate, Register, CreditOne, BeforeSupply;
    assert AfterSeed().utxos.Keys == {};
    assert "deposit" in DepositRequest().registry
      && DepositRequest().registry["deposit"] == AddressMetadata("alice", MapDeposit, Repeat(32, 7));
    CreditOneFresh(ToyWorld(), Progress(AfterSeed(), 0), DepositRequest(), 0, Deposited(), "deposit",
      Allocation(64, 65),
                   map["alice" := 3000]);
  }

  lemma DepositProcessed()
    ensures Ready(AfterSeed(), [Some(Deposited())])
    ensures ProcessUtxos(ToyWorld(), AfterSeed(), DepositRequest(), [Some(Deposited())], false) == Ok(AfterDeposit())
  {
    DepositCredited();
    hide ToyWorld, Repeat, TxID, Header, CreditOne, Deposited, DepositRequest;
    var slots := [Some(Deposited())];
    assert [slots[0]][0] == slots[0];
    assert CreditAll(ToyWorld(), Progress(AfterSeed(), 0), DepositRequest(), slots, 0, false)
      == Ok(Progress(BeforeSupply(), 3000));
  }

  lemma DepositStep()
    ensures WellFormed(ToyWorld(), DepositRequest())
    ensures MapTx(ToyWorld(), AfterSeed(), DepositRequest(), false) == Ok(AfterDeposit())
  {
    DepositWellFormed();
    DepositIndexed();
    DepositProcessed();
    Accepted(DepositRequest(), AfterSeed().headers);
    UnknownSpend(AfterSeed(), DepositId());
    hide ToyWorld, Repeat, TxID, Header, ProcessUtxos, IndexOutputs, VerifyTransaction, UpdateUtxoSpends, WellFormed;
    hide AfterDeposit;
  }

  // ---------------------------------------------------------------- withdrawal

  lemma CreditedLedger()
    ensures CountersInRange(AfterDeposit()) && Coherent(AfterDeposit()) && UserLedger(AfterDeposit())
  {
    var s := AfterDeposit();
    hide Repeat, TxID, Header;
    assert s.utxoList[0].id in IdSet(s.utxoList);
    assert s.balances - {"alice"} == map[];
    Accounts.SumWithout(s.balances, "alice");
  }

  lemma NothingForTheNetwork()
    ensures Sane(ToyWorld()) && SpendableInputs(ToyWorld(), [Deposited()])
    ensures Covers(1, 2000, 3000, 0) && SpendFee(ToyWorld(), 0, [Deposited()], 3000, Repeat(22, 2), 2000) == 0
  {
    ToyFacts();
    assert |ToyWorld().primaryKey| == |ToyWorld().backupKey| == 33;
    hide ToyWorld, Repeat, Sane, SpendVSize, EstimateVSize, TxID;
  }

  lemma WithdrawalPremises()
    ensures Sane(ToyWorld()) && SpendableInputs(ToyWorld(), [Deposited()])
    ensures OneInput(AfterDeposit(), Alice(3000), Withdrawal(), Deposited(), 2000, 0, Repeat(22, 2))
  {
    hide ToyWorld, Sane, SpendableInputs, ParseInt64, FormatUint, Authorised, SpendFee, Covers, Repeat, TxID, Header;
    hide DepositTx;
    hide Alice, DepositBytes, Deduct;
    NothingForTheNetwork();
    ToyFacts();
    ParseAmount(2000);
    AlicePays(3000);
  }

  lemma NothingElse()
    ensures Without(AfterDeposit().utxoList, 64) == []
  {
    var es := AfterDeposit().utxoList;
    assert es[..0] == [];
  }

  lemma WithdrawalStep() returns (plan: Plan, s': State)
    ensures Completes(ToyWorld(), AfterDeposit(), Alice(3000), Withdrawal(), plan, s')
    ensures plan.spend.tx == SpendTransaction() && plan.inputs.ids == [64] && plan.spend.fee == 0
    ensures s'.utxoList == [UtxoRegistryEntry(0, 1000)] && s'.balances == map[]
      && s'.supply == SystemSupply(0, 0, 1000, 0)
    ensures s'.txSpends == map[TxID(ToyWorld(), SpendTransaction()) := plan.spend.signing] && s'.utxos.Keys == {0}
    ensures s'.headers == AfterSeed().headers && s'.lastHeight == Some(100)
  {
    WithdrawalPremises();
    CreditedLedger();
    NothingElse();
    ToyFacts();
    hide ToyWorld, Sane, SpendableInputs, Without, Repeat, Completes, OneInput, Coherent, UserLedger, TxID, Withdrawal;
    hide Alice;
    assert CountersInRange(AfterDeposit());
    plan, s' := WithdrawOne();
  }

  lemma WithdrawOne() returns (plan: Plan, s': State)
    requires Sane(ToyWorld()) && SpendableInputs(ToyWorld(), [Deposited()])
    requires OneInput(AfterDeposit(), Alice(3000), Withdrawal(), Deposited(), 2000, 0, Repeat(22, 2))
    requires CountersInRange(AfterDeposit()) && Coherent(AfterDeposit()) && UserLedger(AfterDeposit())
    requires ToyWorld().addrsOf(Repeat(22, 2)) == Some(["user"]) && Without(AfterDeposit().utxoList, 64) == []
    ensures Completes(ToyWorld(), AfterDeposit(), Alice(3000), Withdrawal(), plan, s')
    ensures plan.spend.tx == SpendTransaction() && plan.inputs.ids == [64] && plan.spend.fee == 0
    ensures s'.utxoList == [UtxoRegistryEntry(0, 1000)] && s'.balances == map[]
      && s'.supply == SystemSupply(0, 0, 1000, 0)
    ensures s'.txSpends == map[TxID(ToyWorld(), SpendTransaction()) := plan.spend.signing] && s'.utxos.Keys == {0}
    ensures s'.headers == AfterSeed().headers && s'.lastHeight == Some(100)
  {
    hide ToyWorld, Sane, SpendableInputs, Without, Repeat, Completes, OneInput, Coherent, UserLedger, TxID, Withdrawal;
    hide Alice;
    hide CountersInRange, Header;
    plan, s' := OneInputCompletes(AfterDeposit(), Alice(3000), Withdrawal(), Deposited(), 2000, 0, Repeat(22, 2));
    assert {64} - {64} + {0} == {0};
  }

  // ---------------------------------------------------------------- confirmation

  lemma ConfirmationIndexed()
    ensures WellFormed(ToyWorld(), ConfirmationRequest())
    ensures IndexOutputs(ToyWorld(), map[], SpendTransaction()) == Ok([])
  {
    var w, outs := ToyWorld(), SpendTransaction().txOut;
    NothingRegistered(w, outs);
    hide ToyWorld, Repeat, TxID;
    assert Slots([], 0) == [];
    forall i | 0 <= i < |outs| ensures RegisteredAddress(w, outs[i], map[]) == None {
      NoneRegistered(w, outs[i]);
    }
  }

  lemma NoneRegistered(w: Btc, out: TxOut)
    ensures RegisteredAddress(w, out, map[]) == None
  {
  }

  lemma {:induction false} NothingRegistered(w: Btc, outs: seq<TxOut>)
    requires |outs| <= 0x1_0000_0000
    ensures forall txId: TxId :: MatchingOutputs(w, map[], txId, outs) == []
  {
    if outs != [] {
      NothingRegistered(w, outs[..|outs| - 1]);
    }
  }

  lemma DistinctIds()
    ensures DepositId() != TxID(ToyWorld(), SpendTransaction())
  {
    var g, h := TxHash(ToyWorld(), DepositTx()), TxHash(ToyWorld(), SpendTransaction());
    assert g == Repeat(32, 1) && h == Repeat(32, 2) && g[0] == 1 && h[0] == 2;
    hide Repeat, ToyWorld, TxHash;
    if DepositId() == TxID(ToyWorld(), SpendTransaction()) {
      DisplayHexInjective(g, h);
      assert false;
    }
  }

  lemma NothingIndexed(s: State, s': State, ok: bool)
    requires CountersInRange(s) && s.headers == AfterSeed().headers
    requires UpdateUtxoSpends(s, TxID(ToyWorld(), SpendTransaction())) == (s', ok)
    ensures WellFormed(ToyWorld(), ConfirmationRequest())
    ensures MapTx(ToyWorld(), s, ConfirmationRequest(), false) == Ok(s')
  {
    ConfirmationIndexed();
    Accepted(ConfirmationRequest(), s.headers);
    assert CountersInRange(s');
    NothingToCredit(s');
    hide ToyWorld, Repeat, TxID, Header, IndexOutputs, VerifyTransaction, UpdateUtxoSpends, WellFormed, ProcessUtxos;
    hide SpendTransaction;
    hide CountersInRange, Alice;
  }

  lemma Unpromoted(plan: Plan, s: State) returns (s': State)
    requires Completes(ToyWorld(), AfterDeposit(), Alice(3000), Withdrawal(), plan, s)
    requires plan.spend.tx == SpendTransaction() && plan.inputs.ids == [64]
    requires |s.utxoList| == 1
    ensures CountersInRange(s) && UpdateUtxoSpends(s, TxID(ToyWorld(), SpendTransaction())) == (s', true)
    ensures s'.utxoList == s.utxoList && TxID(ToyWorld(), SpendTransaction()) !in s'.txSpends
    ensures Stranded(s', Outpoint(TxID(ToyWorld(), SpendTransaction()), 1))
  {
    CreditedLedger();
    DistinctIds();
    var t := TxID(ToyWorld(), SpendTransaction());
    assert forall a :: a in AfterDeposit().utxos ==> AfterDeposit().utxos[a].txId != t;
    ToUser(plan);
    hide ToyWorld, TxID, UpdateUtxoSpends, Withdrawal, Alice, Completes, AfterDeposit, SpendTransaction;
    hide PaysChangeAddress;
    hide Coherent, UserLedger, CountersInRange, Stranded, OutputsPaying, PromotedBelow, AllPromoted, Replaced;
    var found, added := UnmapRegistry(ToyWorld(), AfterDeposit(), Alice(3000), Withdrawal(), plan, s);
    s' := UpdateUtxoSpends(s, t).0;
    NeverFull(s, t, s', UpdateUtxoSpends(s, t).1);
    ChangePromotion(ToyWorld(), AfterDeposit(), Alice(3000), Withdrawal(), plan, s, s');
    OneInputPromotesNothing(ToyWorld(), AfterDeposit(), Alice(3000), Withdrawal(), plan, s, s');
  }

  lemma ConfirmationStep(plan: Plan, s: State) returns (s': State)
    requires Completes(ToyWorld(), AfterDeposit(), Alice(3000), Withdrawal(), plan, s)
    requires plan.spend.tx == SpendTransaction() && plan.inputs.ids == [64]
    requires s.utxoList == [UtxoRegistryEntry(0, 1000)]
    requires s.txSpends == map[TxID(ToyWorld(), SpendTransaction()) := plan.spend.signing]
    requires s.headers == AfterSeed().headers
    ensures WellFormed(ToyWorld(), ConfirmationRequest()) && CountersInRange(s)
    ensures MapTx(ToyWorld(), s, ConfirmationRequest(), false) == Ok(s')
    ensures s'.utxoList == s.utxoList && s'.txSpends == map[] && s'.balances == s.balances && s'.supply == s.supply
    ensures s'.headers == s.headers && Stranded(s', Outpoint(TxID(ToyWorld(), SpendTransaction()), 1))
  {
    hide ToyWorld, TxID, UpdateUtxoSpends, Withdrawal, Alice, Completes, AfterDeposit, SpendTransaction;
    hide CountersInRange, Stranded;
    hide WellFormed, MapTx, Header;
    s' := Unpromoted(plan, s);
    UpdateFrame(s, TxID(ToyWorld(), SpendTransaction()));
    NothingIndexed(s, s', true);
    assert s'.txSpends == map[];
  }

  lemma ToUser(plan: Plan)
    requires plan.spend.tx == SpendTransaction()
    ensures !PaysChangeAddress(ToyWorld(), plan)
  {
    ToyFacts();
    hide ToyWorld, Repeat, TxID;
  }

  lemma SameEntry(s: State, a: Byte, b: Byte)
    requires Coherent(s) && |s.utxoList| == 1 && a in s.utxos && b in s.utxos
    ensures a == b
  {
    var i := EntryOf(s, a);
    var j := EntryOf(s, b);
  }

  lemma SomeFree(s: State)
    requires Coherent(s) && |s.utxoList| == 1
    ensures !PoolFull(s)
  {
    hide Coherent;
    var a: Byte, b: Byte := 64, 65;
    if a in s.utxos && b in s.utxos {
      SameEntry(s, a, b);
    }
  }

  lemma NeverFull(s: State, t: TxId, s': State, ok: bool)
    requires CountersInRange(s) && Coherent(s) && |s.utxoList| == 1 && UpdateUtxoSpends(s, t) == (s', ok)
    ensures ok
  {
    hide UpdateUtxoSpends, SameCoin, Pays, Coherent, PoolFull;
    UpdateUtxoSpendsEffect(s, t, s', ok);
    SomeFree(s');
    assert t !in s.txSpends ==> ok;
  }

  lemma NothingToCredit(s: State)
    requires CountersInRange(s)
    ensures Ready(s, [])
    ensures ProcessUtxos(ToyWorld(), s, ConfirmationRequest(), [], false) == Ok(s)
  {
    hide ToyWorld, Repeat, TxID, CreditOne;
  }

  // ---------------------------------------------------------------- the run

  /** All premises of the run theorems. */
  ghost predicate Premises(w: Btc, s: State, actions: seq<Action>, out: Outpoint -> TxOut) {
    && WellFormedRun(w, s, actions) && NonNegativeDeposits(actions) && DepositsAre(w, actions, out)
    && HonestRun(w, s, actions, out) && FreshPending(w, s, actions)
    && ChainUnbroken(w, s, actions) && HeightsKnown(w, s, actions)
    && ModerateRun(w, actions) && AffordableRun(w, s, actions)
  }

  /** What one more action has to meet. */
  ghost predicate GoodStep(w: Btc, s: State, spent: seq<Outpoint>, a: Action, out: Outpoint -> TxOut)
    requires Sane(w) && CountersInRange(s)
  {
    && WellFormedAction(w, a) && (a.MapAction? ==> NonNegativeOutputs(a.req.tx) && OutputsAre(w, a.req.tx, out))
    && HonestStep(w, s, spent, a, CompletedPlan(w, s, a), out)
    && (CompletedPlan(w, s, a).Some? ==> TxID(w, CompletedPlan(w, s, a).value.spend.tx) !in s.txSpends)
    && !BreaksChain(w, s, a) && HeightKnown(w, s, a) && ModerateAction(w, a) && AffordableStep(w, s, a)
  }

  lemma OneMoreRun(w: Btc, s: State, actions: seq<Action>, a: Action)
    requires WellFormedRun(w, s, actions) && WellFormedAction(w, a)
    ensures WellFormedRun(w, s, actions + [a])
    ensures Run(w, s, actions + [a]) == Next(w, Run(w, s, actions), a)
    ensures Spent(w, s, actions + [a])
         == Spent(w, s, actions) + InputsOf(CompletedPlan(w, Run(w, s, actions), a))
  {
    hide Sane, CountersInRange, WellFormedAction, CompletedPlan, Next, InputsOf;
    var more := actions + [a];
    assert more[..|actions|] == actions && more[|actions|] == a;
  }

  lemma OneMoreDeposits(w: Btc, actions: seq<Action>, a: Action, out: Outpoint -> TxOut)
    requires NonNegativeDeposits(actions) && DepositsAre(w, actions, out) && ModerateRun(w, actions)
    requires ModerateAction(w, a) && (a.MapAction? ==> NonNegativeOutputs(a.req.tx) && OutputsAre(w, a.req.tx, out))
    ensures NonNegativeDeposits(actions + [a]) && DepositsAre(w, actions + [a], out) && ModerateRun(w, actions + [a])
  {
    hide ModerateAction, NonNegativeOutputs, OutputsAre;
  }

  lemma OneMoreHonest(w: Btc, s: State, actions: seq<Action>, a: Action, out: Outpoint -> TxOut)
    requires WellFormedRun(w, s, actions) && WellFormedAction(w, a) && HonestRun(w, s, actions, out)
      && FreshPending(w, s, actions)
    requires var before := Run(w, s, actions);
      var plan := CompletedPlan(w, before, a);
      && HonestStep(w, before, Spent(w, s, actions), a, plan, out)
      && (plan.Some? ==> TxID(w, plan.value.spend.tx) !in before.txSpends)
    ensures WellFormedRun(w, s, actions + [a])
    ensures HonestRun(w, s, actions + [a], out) && FreshPending(w, s, actions + [a])
  {
    hide Sane, CountersInRange, WellFormedAction, CompletedPlan, HonestStep, Next, Run, Spent, TxID;
    var more := actions + [a];
    assert more[..|actions|] == actions && more[|actions|] == a;
  }

  lemma OneMoreChecked(w: Btc, s: State, actions: seq<Action>, a: Action)
    requires WellFormedRun(w, s, actions) && WellFormedAction(w, a)
    requires ChainUnbroken(w, s, actions) && HeightsKnown(w, s, actions) && AffordableRun(w, s, actions)
    requires var before := Run(w, s, actions);
      !BreaksChain(w, before, a) && HeightKnown(w, before, a) && AffordableStep(w, before, a)
    ensures WellFormedRun(w, s, actions + [a])
    ensures ChainUnbroken(w, s, actions + [a]) && HeightsKnown(w, s, actions + [a])
      && AffordableRun(w, s, actions + [a])
  {
    hide Sane, CountersInRange, WellFormedAction, BreaksChain, HeightKnown, AffordableStep, Next, Run;
    var more := actions + [a];
    assert more[..|actions|] == actions && more[|actions|] == a;
  }

  lemma OneMore(w: Btc, s: State, actions: seq<Action>, a: Action, out: Outpoint -> TxOut)
    requires Premises(w, s, actions, out) && GoodStep(w, Run(w, s, actions), Spent(w, s, actions), a, out)
    ensures Premises(w, s, actions + [a], out) && WellFormedRun(w, s, actions + [a])
    ensures Run(w, s, actions + [a]) == Next(w, Run(w, s, actions), a)
    ensures Spent(w, s, actions + [a])
         == Spent(w, s, actions) + InputsOf(CompletedPlan(w, Run(w, s, actions), a))
  {
    hide Sane, CountersInRange, WellFormedAction, NonNegativeOutputs, OutputsAre, HonestStep, CompletedPlan;
    hide BreaksChain, HeightKnown;
    hide ModerateAction, AffordableStep, Next, InputsOf, TxID, Run, Spent, HonestRun, FreshPending, ChainUnbroken;
    hide HeightsKnown;
    hide AffordableRun, NonNegativeDeposits, DepositsAre, ModerateRun;
    OneMoreRun(w, s, actions, a);
    OneMoreDeposits(w, actions, a, out);
    OneMoreHonest(w, s, actions, a, out);
    OneMoreChecked(w, s, actions, a);
  }

  function Outputs(): Outpoint -> TxOut {
    (o: Outpoint) =>
      if o.txId == DepositId() then TxOut(3000, DepositBytes())
      else if o.vout == 0 then TxOut(2000, Repeat(22, 2)) else TxOut(1000, ChangeBytes())
  }

  lemma OutputsCommitted()
    ensures OutputsAre(ToyWorld(), DepositTx(), Outputs()) && OutputsAre(ToyWorld(), SpendTransaction(), Outputs())
    ensures NonNegativeOutputs(DepositTx()) && NonNegativeOutputs(SpendTransaction())
  {
    DistinctIds();
    hide ToyWorld, Repeat, TxID;
  }

  lemma NoPlan(w: Btc, s: State, a: Action)
    requires Sane(w) && CountersInRange(s) && WellFormedAction(w, a) && !a.UnmapAction?
    ensures CompletedPlan(w, s, a) == None
  {
    hide Step, Sane;
  }

  lemma GoodAdministrative(w: Btc, s: State, spent: seq<Outpoint>, a: Action, out: Outpoint -> TxOut)
    requires Sane(w) && CountersInRange(s) && WellFormedAction(w, a) && Administrative(a)
    requires !BreaksChain(w, s, a) && ModerateAction(w, a)
    ensures GoodStep(w, s, spent, a, out) && CompletedPlan(w, s, a) == None
  {
    NoPlan(w, s, a);
    hide Sane, CountersInRange, BreaksChain, ModerateAction, CompletedPlan;
  }

  lemma GoodSeed()
    ensures Sane(ToyWorld()) && GoodStep(ToyWorld(), EmptyState(), [], SeedAction(), Outputs())
    ensures Next(ToyWorld(), EmptyState(), SeedAction()) == AfterSeed()
    ensures CompletedPlan(ToyWorld(), EmptyState(), SeedAction()) == None
  {
    hide ToyWorld, Repeat, TxID, Header, Step, CompletedPlan, Sane, Outputs, GoodStep;
    SeedStep();
    GoodAdministrative(ToyWorld(), EmptyState(), [], SeedAction(), Outputs());
  }

  /** A completed deposit call under a stored header. */
  lemma GoodMap(w: Btc, s: State, req: MapRequest, spent: seq<Outpoint>, s': State, out: Outpoint -> TxOut)
    requires Sane(w) && CountersInRange(s) && WellFormed(w, req) && MapTx(w, s, req, false) == Ok(s')
    requires req.blockHeight in s.headers && w.changeAddress !in req.registry
    requires NonNegativeOutputs(req.tx) && OutputsAre(w, req.tx, out)
    ensures GoodStep(w, s, spent, MapAction(req), out) && Next(w, s, MapAction(req)) == s'
    ensures CompletedPlan(w, s, MapAction(req)) == None
  {
    hide MapTx, CompletedPlan, Sane, WellFormed, OutputsAre, NonNegativeOutputs, VerifyTransaction, CountersInRange;
    hide Unseen;
    hide Affordable, Moderate, Links, AddBlocks, TxID, Unmap, Transfer, SeedBlocks, RegisterRouter;
    NoPlan(w, s, MapAction(req));
  }

  /** A completed withdrawal whose transaction is new. */
  lemma GoodUnmap(w: Btc, s: State, env: Env, p: TransferParams, spent: seq<Outpoint>, plan: Plan, s': State,
                  out: Outpoint -> TxOut)
    requires Completes(w, s, env, p, plan, s') && |p.to| >= 26
    requires OutputsAre(w, plan.spend.tx, out) && Unseen(s, spent, TxID(w, plan.spend.tx))
    requires TxID(w, plan.spend.tx) !in s.txSpends && Moderate(w, p) && Affordable(w, s.supply.baseFeeRate, p, plan)
    ensures GoodStep(w, s, spent, UnmapAction(env, p), out) && Next(w, s, UnmapAction(env, p)) == s'
    ensures CompletedPlan(w, s, UnmapAction(env, p)) == Some(plan)
  {
    hide Unmap, PlanUnmap, Sane, OutputsAre, Unseen, Moderate, Affordable, TxID, CountersInRange;
  }

  lemma NewSpend()
    ensures Unseen(AfterDeposit(), [], TxID(ToyWorld(), SpendTransaction())) && |Withdrawal().to| >= 26
    ensures TxID(ToyWorld(), SpendTransaction()) !in AfterDeposit().txSpends && AfterDeposit().supply.baseFeeRate == 0
  {
    DistinctIds();
    hide ToyWorld, Repeat, TxID, Header, SpendTransaction, DepositTx;
  }

  lemma GoodWithdrawal(plan: Plan, s': State)
    requires Completes(ToyWorld(), AfterDeposit(), Alice(3000), Withdrawal(), plan, s')
    requires plan.spend.tx == SpendTransaction()
    ensures Sane(ToyWorld()) && CountersInRange(AfterDeposit())
    ensures GoodStep(ToyWorld(), AfterDeposit(), [], UnmapAction(Alice(3000), Withdrawal()), Outputs())
    ensures Next(ToyWorld(), AfterDeposit(), UnmapAction(Alice(3000), Withdrawal())) == s'
    ensures CompletedPlan(ToyWorld(), AfterDeposit(), UnmapAction(Alice(3000), Withdrawal())) == Some(plan)
  {
    OutputsCommitted();
    ModerateWithdrawal();
    CreditedLedger();
    NewSpend();
    hide ToyWorld, AfterDeposit, Withdrawal, Alice, SpendTransaction, Outputs, OutputsAre, Unseen, TxID, Moderate;
    hide GoodStep;
    assert Sane(ToyWorld()) && PlanUnmap(ToyWorld(), AfterDeposit(), Alice(3000), Withdrawal()) == Ok(plan);
    hide ToyWorld, AfterDeposit, Withdrawal, Alice, SpendTransaction, Outputs, Completes, Sane, PlanUnmap, OutputsAre;
    hide Unseen, TxID;
    hide Moderate, Affordable, GoodStep, Coherent, UserLedger, CountersInRange, CompletedPlan, Next;
    AffordableWithdrawal(plan);
    GoodUnmap(ToyWorld(), AfterDeposit(), Alice(3000), Withdrawal(), [], plan, s', Outputs());
  }

  lemma ModerateWithdrawal()
    ensures Moderate(ToyWorld(), Withdrawal())
  {
    ToyFacts();
    ParseAmount(2000);
    hide ToyWorld, Repeat, FormatUint, ParseInt64;
  }

  lemma ZeroRate()
    ensures ModerateRate(AfterDeposit()) && AfterDeposit().supply.baseFeeRate == 0
    ensures forall i :: 1 <= i < |SpendTransaction().txOut| ==> SpendTransaction().txOut[i].value >= 0
  {
    hide ToyWorld, Repeat, TxID, Header;
  }

  lemma AffordableWithdrawal(plan: Plan)
    requires Sane(ToyWorld()) && CountersInRange(AfterDeposit()) && Coherent(AfterDeposit())
    requires PlanUnmap(ToyWorld(), AfterDeposit(), Alice(3000), Withdrawal()) == Ok(plan)
    requires plan.spend.tx == SpendTransaction()
    ensures Affordable(ToyWorld(), 0, Withdrawal(), plan)
  {
    ModerateWithdrawal();
    ZeroRate();
    hide ToyWorld, Sane, PlanUnmap, Moderate, Affordable, Coherent, AfterDeposit, Withdrawal, Alice, SpendTransaction;
    hide ModerateRate;
    ModerateChange(ToyWorld(), AfterDeposit(), Alice(3000), Withdrawal(), plan);
  }

  lemma NotChangeAddress()
    ensures ToyWorld().changeAddress !in DepositRequest().registry
      && ToyWorld().changeAddress !in ConfirmationRequest().registry
    ensures 100 in AfterSeed().headers && DepositRequest().blockHeight == ConfirmationRequest().blockHeight == 100
    ensures DepositRequest().tx == DepositTx() && ConfirmationRequest().tx == SpendTransaction()
  {
    hide Repeat, TxID;
  }

  function AllActions(): seq<Action> {
    [SeedAction(), MapAction(DepositRequest()), UnmapAction(Alice(3000), Withdrawal()),
      MapAction(ConfirmationRequest())]
  }

  lemma NoActions()
    ensures Premises(ToyWorld(), EmptyState(), [], Outputs())
    ensures Run(ToyWorld(), EmptyState(), []) == EmptyState() && Spent(ToyWorld(), EmptyState(), []) == []
    ensures CountersInRange(EmptyState()) && CountersInRange(AfterSeed())
  {
    ToyFacts();
    hide ToyWorld, Sane, Outputs, Header;
  }

  lemma AliceOnly()
    ensures AfterDeposit().balances == map["alice" := 3000]
  {
  }

  /** From an empty store: a header is seeded, a deposit for Alice that a relayer brings in is credited to her
      and not to the relayer, her withdrawal completed and its spend confirmed. Every premise of the run
      theorems holds. The ledger is exact at the end; the change was passed over by the confirmation and can
      no longer be promoted. */
  lemma WholeRun() returns (credited: State, s: State)
    ensures Premises(ToyWorld(), EmptyState(), AllActions(), Outputs())
    ensures Run(ToyWorld(), EmptyState(), AllActions()) == s
    ensures var two := [SeedAction(), MapAction(DepositRequest())];
      && two <= AllActions() && WellFormedRun(ToyWorld(), EmptyState(), two)
      && Run(ToyWorld(), EmptyState(), two) == credited
    ensures GetBal(credited.balances, "alice") == 3000 && GetBal(credited.balances, "relayer") == 0
    ensures s.utxoList == [UtxoRegistryEntry(0, 1000)] && s.balances == map[] && s.supply == SystemSupply(0, 0, 1000, 0)
    ensures s.txSpends == map[] && Stranded(s, Outpoint(TxID(ToyWorld(), SpendTransaction()), 1))
  {
    hide ToyWorld, EmptyState, Outputs, SeedAction, DepositRequest, Alice, Withdrawal, ConfirmationRequest, AfterSeed;
    hide AfterDeposit;
    hide Premises, GoodStep, Run, Spent, Next, CompletedPlan, Sane, CountersInRange, Stranded, TxID, SpendTransaction;
    hide DepositTx;
    hide Completes, MapTx, WellFormed, OutputsAre, NonNegativeOutputs, Coherent, UserLedger;
    var w, s0, out := ToyWorld(), EmptyState(), Outputs();
    var a, b, c, d := SeedAction(), MapAction(DepositRequest()), UnmapAction(Alice(3000), Withdrawal()),
      MapAction(ConfirmationRequest());
    NoActions();
    GoodSeed();
    OneMore(w, s0, [], a, out);
    assert [] + [a] == [a] && Spent(w, s0, [a]) == [];
    DepositStep();
    OutputsCommitted();
    NotChangeAddress();
    GoodMap(w, AfterSeed(), DepositRequest(), [], AfterDeposit(), out);
    OneMore(w, s0, [a], b, out);
    assert [a] + [b] == [a, b] && Spent(w, s0, [a, b]) == [];
    credited := AfterDeposit();
    assert credited.balances == map["alice" := 3000] by { AliceOnly(); }
    var plan, s3 := WithdrawalStep();
    GoodWithdrawal(plan, s3);
    OneMore(w, s0, [a, b], c, out);
    assert [a, b] + [c] == [a, b, c];
    s := ConfirmationStep(plan, s3);
    GoodMap(w, s3, ConfirmationRequest(), Spent(w, s0, [a, b, c]), s, out);
    OneMore(w, s0, [a, b, c], d, out);
    assert [a, b, c] + [d] == AllActions();
  }
}
