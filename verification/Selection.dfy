// Fees and coin selection (unmapping.go).

module Selection {
  import opened Wrappers
  import opened Int64
  import opened Bytes
  import opened Types
  import opened Registry

  const DUST_THRESHOLD := 546
  const SPLIT_THRESHOLD := 1000000
  const MAX_CHANGE_OUTPUTS := 4

  // ---------------------------------------------------------------- protocol fee

  const MIN_FEE := 1000

  function CalcVscFee(amount: Int64): (r: Result<Int64>)
  {
    var percentageFee := GoDiv(Wrap64(amount * 100), 10000);
    var finalFee := if percentageFee > MIN_FEE then percentageFee else MIN_FEE;
    if finalFee >= amount then Err(ErrBalance) else Ok(finalFee)
  }

  /** The fee is one percent, at least 1000, of any amount above 1000 - as long as a hundred
      times the amount fits int64, and only then. */
  lemma VscFeeExact(amount: Int64)
    requires amount > 0
    ensures CalcVscFee(amount) == (if amount <= 1000 then Err(ErrBalance)
                                   else Ok(if amount / 100 > 1000 then amount / 100 else 1000))
       <==> InInt64(amount * 100)
  {
    var wrapped := Wrap64(amount * 100);
    if !InInt64(amount * 100) {
      assert Wraps(amount * 100) >= 1;
      assert GoDiv(wrapped, 10000) < amount / 100;
    } else {
      assert GoDiv(wrapped, 10000) == amount * 100 / 10000;
    }
  }

  // ---------------------------------------------------------------- network fee estimate

  /** Change is split into one output per 0.01 BTC, between 1 and 4. */
  function NumChangeOutputs(totalChange: int): (n: int)
    ensures 1 <= n <= 4
  {
    var perSplit := GoDiv(totalChange, SPLIT_THRESHOLD);
    var atLeastOne := if perSplit > 1 then perSplit else 1;
    if atLeastOne < MAX_CHANGE_OUTPUTS then atLeastOne else MAX_CHANGE_OUTPUTS
  }

  /** One change output below 0.02 BTC, then one for every whole 0.01 BTC, and four from 0.04 BTC on; none
      up to 546 satoshis. */
  lemma ChangeCountExact(totalChange: int)
    ensures ChangeCount(totalChange) == 0 <==> totalChange <= 546
    ensures ChangeCount(totalChange) == 1 <==> 546 < totalChange < 2000000
    ensures ChangeCount(totalChange) == 2 <==> 2000000 <= totalChange < 3000000
    ensures ChangeCount(totalChange) == 3 <==> 3000000 <= totalChange < 4000000
    ensures ChangeCount(totalChange) == 4 <==> 4000000 <= totalChange
  {
  }

  function ChangeCount(totalChange: int): (n: nat)
  {
    if totalChange > DUST_THRESHOLD then NumChangeOutputs(totalChange) else 0
  }

  /** Virtual size assumed for a spend: 68-byte witness scripts and 43-byte outputs. */
  function EstimateVSize(numInputs: nat, totalChange: int): nat {
    var numOutputs := 1 + ChangeCount(totalChange);
    var totalSize := 10 + numInputs * 41 + numOutputs * 43;
    (totalSize * 3 + totalSize + numInputs * (72 + 68 + 3) + 3) / 4 + 2
  }

  function EstimateFee(numInputs: nat, amount: Int64, inputAmount: Int64, baseFeeRate: Int64): Int64 {
    Wrap64(EstimateVSize(numInputs, Wrap64(inputAmount - amount)) * baseFeeRate)
  }

  // ---------------------------------------------------------------- coin selection

  /** Inputs worth accAmount in total cover the amount and the estimated fee. */
  predicate Covers(numInputs: nat, amount: Int64, accAmount: int, baseFeeRate: Int64) {
    InInt64(accAmount) && accAmount >= Wrap64(amount + EstimateFee(numInputs, amount, accAmount, baseFeeRate))
  }

  datatype Inputs = Inputs(ids: seq<Byte>, total: Int64)

  /** The first confirmed entry that suffices alone. */
  function FirstSingle(es: UtxoRegistry, amount: Int64, rate: Int64): (e: Option<UtxoRegistryEntry>)
  {
    if es == [] then None else
    var last := es[|es| - 1];
    var earlier := FirstSingle(es[..|es| - 1], amount, rate);
    if earlier.Some? then earlier
    else if IsConfirmed(last) && Covers(1, amount, last.amount, rate) then Some(last)
    else None
  }

  /** Confirmed entries first, unconfirmed ones as a fallback. */
  function SpendingOrder(es: UtxoRegistry): UtxoRegistry {
    InPool(es, true) + InPool(es, false)
  }

  /** Accumulates in spending order from the k-th entry on, checking every partial sum. */
  function Accumulate(order: UtxoRegistry, k: nat, amount: Int64, rate: Int64): (r: Result<Inputs>)
    requires k <= |order|
    decreases |order| - k
  {
    if k == |order| then Err(ErrBalance) else
    var sum := SumAmounts(order[..k + 1]);
    if !InInt64(sum) then Err(ErrArithmetic)
    else if Covers(k + 1, amount, sum, rate) then Ok(Inputs(Ids(order[..k + 1]), sum))
    else Accumulate(order, k + 1, amount, rate)
  }

  /** What getInputUtxoIds returns. */
  function SelectInputs(es: UtxoRegistry, amount: Int64, rate: Int64): (r: Result<Inputs>)
  {
    var single := FirstSingle(es, amount, rate);
    if single.Some? then Ok(Inputs([single.value.id], single.value.amount))
    else Accumulate(SpendingOrder(es), 0, amount, rate)
  }

  /** getInputUtxoIds: one pass for a single input, one over the confirmed pool that sets the
      unconfirmed entries aside, one over those. */
  method GetInputUtxoIds(es: UtxoRegistry, amount: Int64, rate: Int64) returns (r: Result<Inputs>)
    ensures r == SelectInputs(es, amount, rate)
  {
    EmptyPools(es);
    hide Covers, InPool, SumAmounts, Ids, Accumulate, SpendingOrder;
    for i := 0 to |es|
      invariant FirstSingle(es[..i], amount, rate) == None
    {
      var entry := es[i];
      assert es[..i + 1][..i] == es[..i];
      if IsConfirmed(entry) && Covers(1, amount, entry.amount, rate) {
        FirstSinglePrefix(es, i + 1, amount, rate);
        return Ok(Inputs([entry.id], entry.amount));
      }
    }
    assert es[..|es|] == es;
    hide FirstSingle;

    ghost var order := SpendingOrder(es);
    var inputs: seq<Byte> := [];
    var accAmount: Int64 := 0;
    var unconfirmedTxs: UtxoRegistry := [];
    for i := 0 to |es|
      invariant inputs == Ids(InPool(es[..i], true)) && accAmount == SumAmounts(InPool(es[..i], true))
      invariant unconfirmedTxs == InPool(es[..i], false)
      invariant |inputs| <= |order|
      invariant Accumulate(order, 0, amount, rate) == Accumulate(order, |inputs|, amount, rate)
    {
      var entry := es[i];
      PoolStep(es, i);
      if IsConfirmed(entry) {
        ConfirmedPrefix(es, i + 1);
        AccumulateStep(order, InPool(es[..i], true), entry, amount, rate);
        inputs := inputs + [entry.id];
        var sum := SafeAdd64(accAmount, entry.amount);
        if sum.Err? {
          return Err(sum.error);
        }
        accAmount := sum.value;
        if Covers(|inputs|, amount, accAmount, rate) {
          return Ok(Inputs(inputs, accAmount));
        }
      } else {
        unconfirmedTxs := unconfirmedTxs + [entry];
      }
    }

    ConfirmedPrefix(es, |es|);
    for j := 0 to |unconfirmedTxs|
      invariant |inputs| == |InPool(es, true)| + j <= |order|
      invariant inputs == Ids(order[..|inputs|]) && accAmount == SumAmounts(order[..|inputs|])
      invariant Accumulate(order, 0, amount, rate) == Accumulate(order, |inputs|, amount, rate)
    {
      var u := unconfirmedTxs[j];
      UnconfirmedEntry(es, j);
      AccumulateStep(order, order[..|inputs|], u, amount, rate);
      inputs := inputs + [u.id];
      var sum := SafeAdd64(accAmount, u.amount);
      if sum.Err? {
        return Err(sum.error);
      }
      accAmount := sum.value;
      if Covers(|inputs|, amount, accAmount, rate) {
        return Ok(Inputs(inputs, accAmount));
      }
    }
    Exhausted(es, amount, rate);
    r := Err(ErrBalance);
  }

  lemma EmptyPools(es: UtxoRegistry)
    ensures es[..0] == [] && InPool([], true) == [] && InPool([], false) == [] && Ids([]) == [] && SumAmounts([]) == 0
    ensures |SpendingOrder(es)| == |InPool(es, true)| + |InPool(es, false)|
  {
  }

  /** One more registry entry adds itself to its own pool and nothing to the other. */
  lemma PoolStep(es: UtxoRegistry, i: nat)
    requires i < |es|
    ensures var confirmed := IsConfirmed(es[i]);
      && InPool(es[..i + 1], confirmed) == InPool(es[..i], confirmed) + [es[i]]
      && InPool(es[..i + 1], !confirmed) == InPool(es[..i], !confirmed)
  {
    assert es[..i + 1][..i] == es[..i];
  }

  lemma UnconfirmedEntry(es: UtxoRegistry, j: nat)
    requires j < |InPool(es, false)|
    ensures var k := |InPool(es, true)| + j;
      && k < |SpendingOrder(es)| && SpendingOrder(es)[k] == InPool(es, false)[j]
      && SpendingOrder(es)[..k + 1] == SpendingOrder(es)[..k] + [InPool(es, false)[j]]
  {
  }

  lemma Exhausted(es: UtxoRegistry, amount: Int64, rate: Int64)
    ensures Accumulate(SpendingOrder(es), |InPool(es, true)| + |InPool(es, false)|, amount, rate) == Err(ErrBalance)
  {
  }

  lemma {:induction false} FirstSinglePrefix(es: UtxoRegistry, i: nat, amount: Int64, rate: Int64)
    requires i <= |es| && FirstSingle(es[..i], amount, rate).Some?
    ensures FirstSingle(es, amount, rate) == FirstSingle(es[..i], amount, rate)
  {
    if i < |es| {
      assert es[..|es| - 1][..i] == es[..i];
      FirstSinglePrefix(es[..|es| - 1], i, amount, rate);
    } else {
      assert es[..i] == es;
    }
  }

  /** Taking one more entry in spending order. */
  lemma AccumulateStep(order: UtxoRegistry, taken: UtxoRegistry, e: UtxoRegistryEntry, amount: Int64, rate: Int64)
    requires |taken| < |order| && taken + [e] == order[..|taken| + 1]
    ensures Ids(taken + [e]) == Ids(taken) + [e.id]
    ensures SumAmounts(taken + [e]) == SumAmounts(taken) + e.amount
    ensures var sum := SumAmounts(taken) + e.amount;
      Accumulate(order, |taken|, amount, rate)
      == if !InInt64(sum) then Err(ErrArithmetic)
         else if Covers(|taken| + 1, amount, sum, rate) then Ok(Inputs(Ids(taken + [e]), sum))
         else Accumulate(order, |taken| + 1, amount, rate)
  {
    assert (taken + [e])[..|taken|] == taken;
  }

  lemma ConfirmedPrefix(es: UtxoRegistry, i: nat)
    requires i <= |es|
    ensures var n := |InPool(es[..i], true)|;
      n <= |SpendingOrder(es)| && SpendingOrder(es)[..n] == InPool(es[..i], true)
    ensures es[..|es|] == es
  {
    InPoolPrefix(es, true, i);
  }

  // ---------------------------------------------------------------- what selection means

  lemma {:induction false} FirstSingleMeaning(es: UtxoRegistry, amount: Int64, rate: Int64) returns (i: nat)
    ensures FirstSingle(es, amount, rate).None? <==>
      forall j :: 0 <= j < |es| ==> !(IsConfirmed(es[j]) && Covers(1, amount, es[j].amount, rate))
    ensures FirstSingle(es, amount, rate).Some? ==>
      && i < |es| && FirstSingle(es, amount, rate).value == es[i]
      && IsConfirmed(es[i]) && Covers(1, amount, es[i].amount, rate)
      && forall j :: 0 <= j < i ==> !(IsConfirmed(es[j]) && Covers(1, amount, es[j].amount, rate))
  {
    if es == [] {
      i := 0;
    } else {
      var front := es[..|es| - 1];
      i := FirstSingleMeaning(front, amount, rate);
      assert forall j :: 0 <= j < |front| ==> front[j] == es[j];
      if FirstSingle(front, amount, rate).None? {
        i := |es| - 1;
      }
    }
  }

  /** The m-th partial sum is the first that overflows or covers. */
  ghost predicate Decides(order: UtxoRegistry, m: nat, amount: Int64, rate: Int64) {
    && 1 <= m <= |order|
    && (!InInt64(SumAmounts(order[..m])) || Covers(m, amount, SumAmounts(order[..m]), rate))
    && forall j :: 1 <= j < m ==> InInt64(SumAmounts(order[..j])) && !Covers(j, amount, SumAmounts(order[..j]), rate)
  }

  lemma {:induction false} AccumulateMeaning(order: UtxoRegistry, k: nat, amount: Int64, rate: Int64) returns (m: nat)
    requires k <= |order|
    requires forall j :: 1 <= j <= k ==>
      InInt64(SumAmounts(order[..j])) && !Covers(j, amount, SumAmounts(order[..j]), rate)
    ensures var r := Accumulate(order, k, amount, rate);
      && (r == Err(ErrBalance) <==>
           forall j :: 1 <= j <= |order| ==>
             InInt64(SumAmounts(order[..j])) && !Covers(j, amount, SumAmounts(order[..j]), rate))
      && (r != Err(ErrBalance) ==> (
           && Decides(order, m, amount, rate)
           && r == (if InInt64(SumAmounts(order[..m])) then Ok(Inputs(Ids(order[..m]), SumAmounts(order[..m])))
                    else Err(ErrArithmetic))))
    decreases |order| - k
  {
    m := k + 1;
    if k < |order| && InInt64(SumAmounts(order[..m])) && !Covers(m, amount, SumAmounts(order[..m]), rate) {
      m := AccumulateMeaning(order, k + 1, amount, rate);
    }
  }

  /** The whole of coin selection. A single sufficient confirmed entry wins, the first one in
      registry order; otherwise the shortest sufficient prefix of confirmed-then-unconfirmed.
      The balance error means neither exists; an overflow error that a partial sum left int64
      before any prefix sufficed. */
  lemma SelectionMeaning(es: UtxoRegistry, amount: Int64, rate: Int64) returns (i: nat, m: nat)
    ensures var r := SelectInputs(es, amount, rate);
      var order := SpendingOrder(es);
      if exists j :: 0 <= j < |es| && IsConfirmed(es[j]) && Covers(1, amount, es[j].amount, rate) then
        && i < |es| && IsConfirmed(es[i]) && Covers(1, amount, es[i].amount, rate)
        && (forall j :: 0 <= j < i ==> !(IsConfirmed(es[j]) && Covers(1, amount, es[j].amount, rate)))
        && r == Ok(Inputs([es[i].id], es[i].amount))
      else if forall j :: 1 <= j <= |order| ==>
        InInt64(SumAmounts(order[..j])) && !Covers(j, amount, SumAmounts(order[..j]), rate) then
        r == Err(ErrBalance)
      else
        && Decides(order, m, amount, rate)
        && r == (if InInt64(SumAmounts(order[..m])) then Ok(Inputs(Ids(order[..m]), SumAmounts(order[..m])))
                 else Err(ErrArithmetic))
  {
    i := FirstSingleMeaning(es, amount, rate);
    m := AccumulateMeaning(SpendingOrder(es), 0, amount, rate);
  }

  lemma {:induction false} PoolSizes(es: UtxoRegistry)
    ensures |InPool(es, true)| + |InPool(es, false)| == |es|
  {
    if es != [] {
      PoolSizes(es[..|es| - 1]);
    }
  }

  lemma SelectionSize(es: UtxoRegistry, amount: Int64, rate: Int64, inputs: Inputs)
    requires SelectInputs(es, amount, rate) == Ok(inputs)
    ensures |inputs.ids| <= |es|
  {
    PoolSizes(es);
    hide Covers, InPool;
    var i, m := SelectionMeaning(es, amount, rate);
  }

  /** Spending order rearranges the registry: same entries, ids still distinct. */
  lemma SpendingOrderMembers(es: UtxoRegistry)
    requires DistinctIds(es)
    ensures DistinctIds(SpendingOrder(es))
    ensures forall e :: e in SpendingOrder(es) <==> e in es
  {
    InPoolDistinct(es, true);
    InPoolDistinct(es, false);
    forall e ensures e in SpendingOrder(es) <==> e in es {
      InPoolMember(es, true, e);
      InPoolMember(es, false, e);
    }
    var a, b := InPool(es, true), InPool(es, false);
    forall i, j | 0 <= i < |a| && 0 <= j < |b| ensures a[i].id != b[j].id {
      InPoolMember(es, true, a[i]);
      InPoolMember(es, false, b[j]);
    }
  }

  /** On success the ids are those of distinct registry entries, the total is the sum of their
      amounts and covers amount plus estimated fee; an unconfirmed entry is chosen only together
      with every confirmed one. */
  lemma SelectionSound(es: UtxoRegistry, amount: Int64, rate: Int64) returns (taken: UtxoRegistry)
    requires DistinctIds(es) && SelectInputs(es, amount, rate).Ok?
    ensures var r := SelectInputs(es, amount, rate).value;
      && r.ids == Ids(taken) && r.total == SumAmounts(taken)
      && DistinctIds(taken) && taken != [] && (forall e :: e in taken ==> e in es)
      && Covers(|r.ids|, amount, r.total, rate)
      && ((exists e :: e in taken && !IsConfirmed(e)) ==> forall e :: e in es && IsConfirmed(e) ==> e in taken)
  {
    hide SelectInputs, InPool, Covers, SumAmounts, Ids, DistinctIds, SpendingOrder;
    var i, m := SelectionMeaning(es, amount, rate);
    if exists j :: 0 <= j < |es| && IsConfirmed(es[j]) && Covers(1, amount, es[j].amount, rate) {
      taken := [es[i]];
      SingleEntry(es[i]);
    } else {
      PrefixOfOrder(es, m);
      taken := SpendingOrder(es)[..m];
    }
  }

  lemma SingleEntry(e: UtxoRegistryEntry)
    ensures SumAmounts([e]) == e.amount && Ids([e]) == [e.id] && DistinctIds([e])
  {
    assert [e][..0] == [];
  }

  /** A prefix of the spending order that reaches an unconfirmed entry holds every confirmed one. */
  lemma PrefixOfOrder(es: UtxoRegistry, m: nat)
    requires DistinctIds(es) && m <= |SpendingOrder(es)|
    ensures var taken := SpendingOrder(es)[..m];
      && DistinctIds(taken) && |Ids(taken)| == m && (forall e :: e in taken ==> e in es)
      && ((exists e :: e in taken && !IsConfirmed(e)) ==> forall e :: e in es && IsConfirmed(e) ==> e in taken)
  {
    hide InPool;
    SpendingOrderMembers(es);
    var a, taken := InPool(es, true), SpendingOrder(es)[..m];
    forall e ensures e in a <==> e in es && IsConfirmed(e) {
      InPoolMember(es, true, e);
    }
    if m <= |a| {
      assert taken == a[..m];
      assert forall e :: e in taken ==> e in a;
    } else {
      assert a == taken[..|a|];
      assert forall e :: e in a ==> e in taken;
    }
  }

  /** What counts as covered, in plain integers: inputs worth the amount and the fee for 10 bytes of overhead,
      41 bytes and 143 witness bytes an input, 43 bytes an output, a quarter of the witness bytes rounded up
      and 2 bytes to spare. */
  lemma CoversExact(numInputs: nat, amount: Int64, total: Int64, rate: Int64)
    requires amount <= total && InInt64(total - amount)
    requires var size := 10 + 41 * numInputs + 43 * (1 + ChangeCount(total - amount)) + (143 * numInputs + 3) / 4 + 2;
      InInt64(size * rate) && InInt64(amount + size * rate)
    ensures var size := 10 + 41 * numInputs + 43 * (1 + ChangeCount(total - amount)) + (143 * numInputs + 3) / 4 + 2;
      Covers(numInputs, amount, total, rate) <==> total >= amount + size * rate
  {
    hide ChangeCount;
    var n, c := numInputs, ChangeCount(total - amount);
    var bytes := 10 + n * 41 + (1 + c) * 43;
    assert bytes * 3 + bytes + n * (72 + 68 + 3) + 3 == 4 * bytes + (143 * n + 3);
  }
}
