// Spend construction: real fee, change splitting, change indexing (unmapping.go).

module Spend {
  import opened Wrappers
  import opened Int64
  import opened Bytes
  import opened Text
  import opened Types
  import opened Keys
  import opened World
  import opened Selection

  // ---------------------------------------------------------------- sizes

  /** wire.VarIntSerializeSize */
  function VarIntSize(n: nat): nat {
    if n < 0xfd then 1 else if n <= 0xffff then 3 else if n <= 0xffff_ffff then 5 else 9
  }

  function TxOutSize(script: Bytes): nat {
    8 + VarIntSize(|script|) + |script|
  }

  /** SerializeSize of a transaction with one output and inputs without signature scripts. */
  function OneOutputSize(numInputs: nat, destScript: Bytes): nat {
    8 + VarIntSize(numInputs) + VarIntSize(1) + 41 * numInputs + TxOutSize(destScript)
  }

  /** Signature, script and size flags of every input. */
  function WitnessDataSize(scripts: seq<Bytes>): nat {
    if scripts == [] then 0
    else WitnessDataSize(scripts[..|scripts| - 1]) + (72 + |scripts[|scripts| - 1]| + 3)
  }

  function SegwitVSize(baseSize: nat, witnessDataSize: nat): nat {
    (baseSize * 3 + (baseSize + witnessDataSize) + 3) / 4 + 2
  }

  method CalculateSegwitFee(baseSize: nat, witnessScripts: seq<Bytes>, baseFeeRate: Int64) returns (fee: Int64)
    ensures fee == Wrap64(SegwitVSize(baseSize, WitnessDataSize(witnessScripts)) * baseFeeRate)
  {
    var witnessDataSize := 0;
    for i := 0 to |witnessScripts|
      invariant witnessDataSize == WitnessDataSize(witnessScripts[..i])
    {
      assert witnessScripts[..i + 1][..i] == witnessScripts[..i];
      witnessDataSize := witnessDataSize + 72 + |witnessScripts[i]| + 3;
    }
    assert witnessScripts[..|witnessScripts|] == witnessScripts;
    var totalSize := baseSize + witnessDataSize;
    var vSize := (baseSize * 3 + totalSize + 3) / 4 + 2;
    fee := Wrap64(vSize * baseFeeRate);
  }

  // ---------------------------------------------------------------- the spend

  datatype SpendTx = SpendTx(signing: SigningData, tx: MsgTx, fee: Int64)

  ghost predicate SpendableInputs(w: Btc, inputs: seq<Utxo>) {
    |w.primaryKey| == |w.backupKey| == 33 && forall i :: 0 <= i < |inputs| ==> |inputs[i].TagBytes()| <= 255
  }

  function OutpointOf(u: Utxo): Outpoint {
    Outpoint(u.txId, u.vout)
  }

  function Outpoints(inputs: seq<Utxo>): (r: seq<Outpoint>)
    ensures |r| == |inputs|
  {
    seq(|inputs|, i requires 0 <= i < |inputs| => OutpointOf(inputs[i]))
  }

  function WitnessScripts(w: Btc, inputs: seq<Utxo>): (r: seq<Bytes>)
    requires SpendableInputs(w, inputs)
    ensures |r| == |inputs|
  {
    seq(|inputs|, i requires 0 <= i < |inputs| => WitnessScript(w, inputs[i].tag))
  }

  /** Virtual size of the real spend with a number of change outputs. */
  function SpendVSize(w: Btc, inputs: seq<Utxo>, destScript: Bytes, changeOutputs: nat): nat
    requires Sane(w) && SpendableInputs(w, inputs)
  {
    SegwitVSize(OneOutputSize(|inputs|, destScript) + changeOutputs * TxOutSize(ChangeScript(w)),
                WitnessDataSize(WitnessScripts(w, inputs)))
  }

  /** The change split: equal shares, the remainder of the truncated division on the first. */
  function ChangeAmounts(net: Int64, n: nat): (r: seq<Int64>)
    requires 1 <= n <= 4
    ensures |r| == n
  {
    GoDivRemainder(net, n);
    var each := GoDiv(net, n);
    var first := if each * n != net then each + (net - each * n) else each;
    [first] + seq(n - 1, i => each)
  }

  function ChangeTxOuts(script: Bytes, amounts: seq<Int64>): (outs: seq<TxOut>)
    ensures |outs| == |amounts|
  {
    seq(|amounts|, i requires 0 <= i < |amounts| => TxOut(amounts[i], script))
  }

  /** The fee the spend reports; with change it is computed for the final number of outputs. */
  function SpendFee(w: Btc, rate: Int64, inputs: seq<Utxo>, total: Int64, destScript: Bytes, sendAmount: Int64): Int64
    requires Sane(w) && SpendableInputs(w, inputs)
  {
    Wrap64(SpendVSize(w, inputs, destScript, ChangeCount(Wrap64(total - sendAmount))) * rate)
  }

  function SpendOutputs(w: Btc, rate: Int64, inputs: seq<Utxo>, total: Int64, destScript: Bytes,
                        sendAmount: Int64): (outs: seq<TxOut>)
    requires Sane(w) && SpendableInputs(w, inputs)
    ensures |outs| == 1 + ChangeCount(Wrap64(total - sendAmount))
  {
    var totalChange := Wrap64(total - sendAmount);
    var n := ChangeCount(totalChange);
    [TxOut(sendAmount, destScript)]
    + if n == 0 then [] else
        ChangeTxOuts(ChangeScript(w),
          ChangeAmounts(Wrap64(totalChange - SpendFee(w, rate, inputs, total, destScript, sendAmount)), n))
  }

  function SigHashes(w: Btc, tx: MsgTx, inputs: seq<Utxo>): (r: seq<UnsignedSigHash>)
    requires SpendableInputs(w, inputs)
    ensures |r| == |inputs|
  {
    seq(|inputs|, i requires 0 <= i < |inputs| =>
      var script := WitnessScript(w, inputs[i].tag);
      UnsignedSigHash(i % 0x1_0000_0000, w.sigHash(tx, i, script, inputs[i]), script))
  }

  /** What createSpendTransaction returns. */
  function BuildSpend(w: Btc, rate: Int64, inputs: seq<Utxo>, total: Int64, dest: string,
                      sendAmount: Int64): (r: Result<SpendTx>)
    requires Sane(w) && SpendableInputs(w, inputs)
  {
    var destScript := w.decodeAddress(dest);
    if destScript.None? then Err(ErrInput) else
    var tx := MsgTx(Outpoints(inputs), SpendOutputs(w, rate, inputs, total, destScript.value, sendAmount));
    Ok(SpendTx(SigningData(w.serialize(tx), SigHashes(w, tx, inputs)), tx,
               SpendFee(w, rate, inputs, total, destScript.value, sendAmount)))
  }

  method CreateSpendTransaction(w: Btc, rate: Int64, inputs: seq<Utxo>, totalInputsAmount: Int64, dest: string,
                                sendAmount: Int64)
    returns (r: Result<SpendTx>)
    requires Sane(w) && SpendableInputs(w, inputs)
    ensures r == BuildSpend(w, rate, inputs, totalInputsAmount, dest, sendAmount)
  {
    hide Sane, SegwitVSize, OneOutputSize, TxOutSize, NumChangeOutputs, ChangeAmounts, WitnessDataSize, WitnessScripts;
    hide SigHashes, Outpoints, SpendableInputs;
    var txIn, witnessScripts := AddInputs(w, inputs);
    var destScript := w.decodeAddress(dest);
    if destScript.None? {
      return Err(ErrInput);
    }
    var txOut := [TxOut(sendAmount, destScript.value)];
    var baseSize := OneOutputSize(|inputs|, destScript.value);
    var fee := CalculateSegwitFee(baseSize, witnessScripts, rate);
    var totalChange := Wrap64(totalInputsAmount - sendAmount);

    if totalChange > DUST_THRESHOLD {
      var changeScript := ChangeScript(w);
      var numChangeOutputs := NumChangeOutputs(totalChange);
      baseSize := baseSize + numChangeOutputs * TxOutSize(changeScript);
      fee := CalculateSegwitFee(baseSize, witnessScripts, rate);
      var net := Wrap64(totalChange - fee);
      txOut := AddChangeOutputs(txOut, changeScript, net, numChangeOutputs);
    }
    assert fee == SpendFee(w, rate, inputs, totalInputsAmount, destScript.value, sendAmount) by {
      assert OneOutputSize(|inputs|, destScript.value) + 0 * TxOutSize(ChangeScript(w))
        == OneOutputSize(|inputs|, destScript.value);
    }
    assert txOut == SpendOutputs(w, rate, inputs, totalInputsAmount, destScript.value, sendAmount);

    var tx := MsgTx(txIn, txOut);
    var sigHashes := CalcSigHashes(w, tx, inputs, witnessScripts);
    r := Ok(SpendTx(SigningData(w.serialize(tx), sigHashes), tx, fee));
  }

  /** The input loop: outpoints and witness scripts, in order. */
  method AddInputs(w: Btc, inputs: seq<Utxo>) returns (txIn: seq<Outpoint>, witnessScripts: seq<Bytes>)
    requires SpendableInputs(w, inputs)
    ensures txIn == Outpoints(inputs) && witnessScripts == WitnessScripts(w, inputs)
  {
    hide WitnessScript;
    txIn, witnessScripts := [], [];
    for i := 0 to |inputs|
      invariant txIn == Outpoints(inputs)[..i] && witnessScripts == WitnessScripts(w, inputs)[..i]
    {
      txIn := txIn + [Outpoint(inputs[i].txId, inputs[i].vout)];
      witnessScripts := witnessScripts + [WitnessScript(w, inputs[i].tag)];
    }
  }

  /** The signature-hash loop. */
  method CalcSigHashes(w: Btc, tx: MsgTx, inputs: seq<Utxo>, witnessScripts: seq<Bytes>)
    returns (sigHashes: seq<UnsignedSigHash>)
    requires SpendableInputs(w, inputs) && witnessScripts == WitnessScripts(w, inputs)
    ensures sigHashes == SigHashes(w, tx, inputs)
  {
    hide WitnessScript;
    sigHashes := [];
    for i := 0 to |inputs|
      invariant sigHashes == SigHashes(w, tx, inputs)[..i]
    {
      var sigHash := w.sigHash(tx, i, witnessScripts[i], inputs[i]);
      sigHashes := sigHashes + [UnsignedSigHash(i % 0x1_0000_0000, sigHash, witnessScripts[i])];
    }
  }

  /** The splitting arithmetic and the outputs it appends. */
  method AddChangeOutputs(txOut: seq<TxOut>, changeScript: Bytes, net: Int64, numChangeOutputs: nat)
    returns (outs: seq<TxOut>)
    requires 1 <= numChangeOutputs <= 4
    ensures outs == txOut + ChangeTxOuts(changeScript, ChangeAmounts(net, numChangeOutputs))
  {
    hide GoDiv, ChangeAmounts, ChangeTxOuts;
    GoDivRemainder(net, numChangeOutputs);
    ChangeForm(changeScript, net, numChangeOutputs);
    var eachChangeAmount := GoDiv(net, numChangeOutputs);
    var firstChangeAmount := eachChangeAmount;
    if eachChangeAmount * numChangeOutputs != net {
      firstChangeAmount := firstChangeAmount + (net - eachChangeAmount * numChangeOutputs);
    }
    outs := txOut + [TxOut(firstChangeAmount, changeScript)];
    ghost var start := outs;
    for i := 0 to numChangeOutputs - 1
      invariant outs == start + seq(i, _ => TxOut(eachChangeAmount, changeScript))
    {
      outs := outs + [TxOut(eachChangeAmount, changeScript)];
    }
  }

  /** The split outputs: the first takes the remainder, the others are equal. */
  lemma ChangeForm(script: Bytes, net: Int64, n: nat)
    requires 1 <= n <= 4
    ensures InInt64(GoDiv(net, n)) && InInt64(GoDiv(net, n) + (net - GoDiv(net, n) * n))
    ensures ChangeTxOuts(script, ChangeAmounts(net, n))
         == [TxOut(GoDiv(net, n) + (net - GoDiv(net, n) * n), script)] + seq(n - 1, _ => TxOut(GoDiv(net, n), script))
  {
    GoDivRemainder(net, n);
    hide GoDiv;
  }

  // ---------------------------------------------------------------- conservation

  function SumOutputs(outs: seq<TxOut>): int {
    if outs == [] then 0 else SumOutputs(outs[..|outs| - 1]) + outs[|outs| - 1].value
  }

  lemma {:induction false} SumOutputsAppend(a: seq<TxOut>, b: seq<TxOut>)
    ensures SumOutputs(a + b) == SumOutputs(a) + SumOutputs(b)
  {
    if b == [] {
      assert a + b == a;
    } else {
      SumOutputsAppend(a, b[..|b| - 1]);
      assert (a + b)[..|a + b| - 1] == a + b[..|b| - 1];
    }
  }

  lemma {:induction false} SumEqualOutputs(out: TxOut, k: nat)
    ensures SumOutputs(seq(k, i => out)) == k * out.value
  {
    var outs := seq(k, i => out);
    if k > 0 {
      assert outs[..k - 1] == seq(k - 1, i => out);
      SumEqualOutputs(out, k - 1);
    }
  }

  /** The shares themselves: first = net - (n - 1) * each, within n of each, signs following net. */
  lemma ChangeShares(net: Int64, n: nat)
    requires 1 <= n <= 4
    ensures var amounts := ChangeAmounts(net, n);
      && (forall i :: 1 <= i < n ==> amounts[i] == GoDiv(net, n))
      && amounts[0] + (n - 1) * GoDiv(net, n) == net
      && 0 - n < amounts[0] - GoDiv(net, n) < n
      && (net >= 0 ==> amounts[0] >= 0 && GoDiv(net, n) >= 0)
      && (net < 0 ==> amounts[0] < 0)
  {
    GoDivRemainder(net, n);
    hide GoDiv;
    if n == 1 {
    } else if n == 2 {
    } else if n == 3 {
    } else {
      assert n == 4;
    }
  }

  /** The change outputs add up to exactly what is to be split; only the first differs from the
      others, by less than their number; and none is negative exactly when the net change is not. */
  lemma ChangeSplit(script: Bytes, net: Int64, n: nat)
    requires 1 <= n <= 4
    ensures var amounts := ChangeAmounts(net, n);
      && SumOutputs(ChangeTxOuts(script, amounts)) == net
      && (forall i :: 1 <= i < n ==> 0 - n < amounts[0] - amounts[i] < n && amounts[i] == amounts[n - 1])
      && ((forall i :: 0 <= i < n ==> amounts[i] >= 0) <==> net >= 0)
  {
    ChangeShares(net, n);
    hide ChangeAmounts, GoDiv;
    var each := GoDiv(net, n);
    var amounts := ChangeAmounts(net, n);
    var first, other := TxOut(amounts[0], script), TxOut(if n > 1 then amounts[1] else 0, script);
    assert ChangeTxOuts(script, amounts) == [first] + seq(n - 1, i => other);
    SumOutputsAppend([first], seq(n - 1, i => other));
    SumEqualOutputs(other, n - 1);
    assert SumOutputs([first]) == SumOutputs([first][..0]) + first.value;
  }

  /** The destination comes first; every other output goes to the change script. */
  lemma SpendShape(w: Btc, rate: Int64, inputs: seq<Utxo>, total: Int64, destScript: Bytes, sendAmount: Int64)
    requires Sane(w) && SpendableInputs(w, inputs)
    ensures var outs := SpendOutputs(w, rate, inputs, total, destScript, sendAmount);
      && |outs| == 1 + ChangeCount(Wrap64(total - sendAmount)) <= 5
      && outs[0] == TxOut(sendAmount, destScript)
      && forall i :: 1 <= i < |outs| ==> outs[i].pkScript == ChangeScript(w)
  {
    hide Sane, SpendableInputs, SpendFee, ChangeAmounts, NumChangeOutputs;
  }

  lemma ChangeTail(w: Btc, rate: Int64, inputs: seq<Utxo>, total: Int64, destScript: Bytes, sendAmount: Int64)
    requires Sane(w) && SpendableInputs(w, inputs) && Wrap64(total - sendAmount) > DUST_THRESHOLD
    ensures var outs := SpendOutputs(w, rate, inputs, total, destScript, sendAmount);
      var change := Wrap64(total - sendAmount);
      var net := Wrap64(change - SpendFee(w, rate, inputs, total, destScript, sendAmount));
      outs[1..] == ChangeTxOuts(ChangeScript(w), ChangeAmounts(net, ChangeCount(change)))
  {
    hide Sane, SpendableInputs, SpendFee, ChangeAmounts, NumChangeOutputs;
  }

  /** Conservation of value in a spend with change: inputs = amount sent + change + fee. The
      premise says that no int64 subtraction wrapped. */
  lemma SpendConserves(w: Btc, rate: Int64, inputs: seq<Utxo>, total: Int64, destScript: Bytes, sendAmount: Int64)
    requires Sane(w) && SpendableInputs(w, inputs)
    requires var fee := SpendFee(w, rate, inputs, total, destScript, sendAmount);
      InInt64(total - sendAmount - fee) && InInt64(total - sendAmount) && total - sendAmount > DUST_THRESHOLD
    ensures var outs := SpendOutputs(w, rate, inputs, total, destScript, sendAmount);
      var fee := SpendFee(w, rate, inputs, total, destScript, sendAmount);
      && 2 <= |outs| <= 5
      && sendAmount + SumOutputs(outs[1..]) + fee == total
      && ((forall i :: 1 <= i < |outs| ==> outs[i].value >= 0) <==> fee <= total - sendAmount)
  {
    hide Sane, SpendableInputs, SpendFee, SpendOutputs, ChangeScript, ChangeAmounts, NumChangeOutputs, SumOutputs;
    ChangeTail(w, rate, inputs, total, destScript, sendAmount);
    var fee := SpendFee(w, rate, inputs, total, destScript, sendAmount);
    var net := total - sendAmount - fee;
    var n := ChangeCount(total - sendAmount);
    var amounts := ChangeAmounts(net, n);
    ChangeSplit(ChangeScript(w), net, n);
    var outs := SpendOutputs(w, rate, inputs, total, destScript, sendAmount);
    assert outs[1..] == ChangeTxOuts(ChangeScript(w), amounts);
    assert forall i :: 1 <= i < |outs| ==> outs[i] == outs[1..][i - 1] == TxOut(amounts[i - 1], ChangeScript(w));
    if forall i :: 1 <= i < |outs| ==> outs[i].value >= 0 {
      assert forall i :: 0 <= i < n ==> amounts[i] == outs[i + 1].value;
    }
  }

  // ---------------------------------------------------------------- fee agreement

  lemma SizeArithmetic(n: nat, c: nat, destSize: nat, data: nat)
    ensures SegwitVSize(10 + 41 * n + destSize + c * 43, data)
         == (10 + 41 * n + (1 + c) * 43 + (143 * n + 3) / 4 + 2)
           + ((destSize - 43) + (data + 3) / 4 - (143 * n + 3) / 4)
  {
    var base := 10 + 41 * n + destSize + c * 43;
    assert base * 3 + (base + data) + 3 == 4 * base + (data + 3);
  }

  lemma EstimateArithmetic(n: nat, totalChange: int)
    ensures EstimateVSize(n, totalChange) == 10 + 41 * n + (1 + ChangeCount(totalChange)) * 43 + (143 * n + 3) / 4 + 2
  {
    hide ChangeCount;
    var c := ChangeCount(totalChange);
    var size := 10 + n * 41 + (1 + c) * 43;
    assert size * 3 + size + n * (72 + 68 + 3) + 3 == 4 * size + (143 * n + 3);
  }

  /** The size difference between a real spend and its estimate. */
  function SizeExcess(w: Btc, inputs: seq<Utxo>, destScript: Bytes): int
    requires SpendableInputs(w, inputs)
  {
    (TxOutSize(destScript) - 43) + (VarIntSize(|inputs|) - 1)
    + (WitnessDataSize(WitnessScripts(w, inputs)) + 3) / 4 - (143 * |inputs| + 3) / 4
  }

  /** Real and estimated size, at the same number of change outputs, differ by the destination
      output's size, the width of the input count and the witness bytes alone. */
  lemma VSizeAgreement(w: Btc, inputs: seq<Utxo>, destScript: Bytes, totalChange: int)
    requires Sane(w) && SpendableInputs(w, inputs)
    ensures SpendVSize(w, inputs, destScript, ChangeCount(totalChange))
         == EstimateVSize(|inputs|, totalChange) + SizeExcess(w, inputs, destScript)
  {
    assert TxOutSize(ChangeScript(w)) == 43;
    hide Sane, ChangeCount, WitnessScripts, WitnessDataSize, SegwitVSize, EstimateVSize, ChangeScript;
    var n, c := |inputs|, ChangeCount(totalChange);
    var width := VarIntSize(n) - 1;
    assert OneOutputSize(n, destScript) == 10 + 41 * n + (TxOutSize(destScript) + width);
    SizeArithmetic(n, c, TxOutSize(destScript) + width, WitnessDataSize(WitnessScripts(w, inputs)));
    EstimateArithmetic(n, totalChange);
  }

  /** The fee charged differs from the fee that selection reserved by the rate times that size
      difference (absent overflow). */
  lemma FeeAgreement(w: Btc, rate: Int64, inputs: seq<Utxo>, total: Int64, destScript: Bytes, sendAmount: Int64)
    requires Sane(w) && SpendableInputs(w, inputs)
    requires var change := ChangeCount(Wrap64(total - sendAmount));
      InInt64(SpendVSize(w, inputs, destScript, change) * rate)
      && InInt64(EstimateVSize(|inputs|, Wrap64(total - sendAmount)) * rate)
    ensures SpendFee(w, rate, inputs, total, destScript, sendAmount)
         == EstimateFee(|inputs|, sendAmount, total, rate) + rate * SizeExcess(w, inputs, destScript)
  {
    VSizeAgreement(w, inputs, destScript, Wrap64(total - sendAmount));
    hide Sane, SpendableInputs, SpendVSize, EstimateVSize, SizeExcess, ChangeCount;
    RateDifference(SpendVSize(w, inputs, destScript, ChangeCount(Wrap64(total - sendAmount))),
                   EstimateVSize(|inputs|, Wrap64(total - sendAmount)), SizeExcess(w, inputs, destScript), rate);
  }

  lemma RateDifference(actual: int, estimate: int, difference: int, rate: int)
    requires actual - estimate == difference
    ensures actual * rate - estimate * rate == rate * difference
  {
    assert actual == estimate + difference;
  }

  lemma CoversUpTo(total: int, send: int, fee: int, estimate: int, rate: int, excess: int, bound: int)
    requires fee - estimate == rate * excess && excess <= bound && 0 <= rate && total >= send + estimate
    ensures total + rate * bound >= send + fee
  {
    MulMonotone(rate, excess, bound);
  }

  lemma {:induction false} WitnessDataBound(scripts: seq<Bytes>, most: nat)
    requires forall s :: s in scripts ==> |s| <= most
    ensures WitnessDataSize(scripts) <= |scripts| * (75 + most)
  {
    if scripts != [] {
      var front := scripts[..|scripts| - 1];
      assert scripts[|scripts| - 1] in scripts;
      WitnessDataBound(front, most);
      assert |scripts| * (75 + most) == |front| * (75 + most) + (75 + most);
    }
  }

  /** When the inputs cover amount plus real fee: exactly when what they hold beyond amount and
      estimated fee pays for the size that the estimate missed. */
  lemma CoverageExact(w: Btc, rate: Int64, inputs: seq<Utxo>, total: Int64, destScript: Bytes, sendAmount: Int64)
    requires Sane(w) && SpendableInputs(w, inputs)
    requires var change := ChangeCount(Wrap64(total - sendAmount));
      InInt64(SpendVSize(w, inputs, destScript, change) * rate)
      && InInt64(EstimateVSize(|inputs|, Wrap64(total - sendAmount)) * rate)
    ensures sendAmount + SpendFee(w, rate, inputs, total, destScript, sendAmount) <= total <==>
      rate * SizeExcess(w, inputs, destScript) <= total - sendAmount - EstimateFee(|inputs|, sendAmount, total, rate)
  {
    hide Sane, SpendableInputs, SpendVSize, EstimateVSize, SizeExcess, SpendFee, EstimateFee, ChangeCount;
    FeeAgreement(w, rate, inputs, total, destScript, sendAmount);
  }

  /** How far a successful selection covers the spend it leads to: for destination outputs of at
      most 43 bytes and deposit, change and empty tags, all but rate * ceil(43 n / 4) of the
      amount plus the real fee (below 253 inputs; from there on the input count is two bytes wider). */
  lemma SelectionCoversSpend(w: Btc, rate: Int64, inputs: seq<Utxo>, total: Int64, destScript: Bytes, sendAmount: Int64)
    requires Sane(w) && SpendableInputs(w, inputs) && 0 <= rate
    requires TxOutSize(destScript) <= 43 && ContractTags(inputs)
    requires var change := ChangeCount(Wrap64(total - sendAmount));
      InInt64(SpendVSize(w, inputs, destScript, change) * rate)
      && InInt64(EstimateVSize(|inputs|, Wrap64(total - sendAmount)) * rate)
      && InInt64(sendAmount + EstimateFee(|inputs|, sendAmount, total, rate))
    requires Covers(|inputs|, sendAmount, total, rate)
    ensures total + rate * ((43 * |inputs| + 3) / 4 + VarIntSize(|inputs|) - 1)
         >= sendAmount + SpendFee(w, rate, inputs, total, destScript, sendAmount)
  {
    hide Sane, SpendableInputs, ContractTags, SpendVSize, EstimateVSize, WitnessScripts, WitnessDataSize, TxOutSize;
    hide SpendFee, EstimateFee, ChangeCount, VarIntSize;
    ScriptsBound(w, inputs);
    FeeAgreement(w, rate, inputs, total, destScript, sendAmount);
    var n := |inputs|;
    var excess := SizeExcess(w, inputs, destScript);
    var bound := (43 * n + 3) / 4 + VarIntSize(n) - 1;
    assert excess <= bound;
    CoversUpTo(total, sendAmount, SpendFee(w, rate, inputs, total, destScript, sendAmount),
               EstimateFee(n, sendAmount, total, rate), rate, excess, bound);
  }

  /** The tags the contract itself gives out: nil for change, SHA-256 for deposits, empty after a reload. */
  ghost predicate ContractTags(inputs: seq<Utxo>) {
    forall i :: 0 <= i < |inputs| ==>
      inputs[i].tag.None? || inputs[i].tag.value == [] || |inputs[i].tag.value| == 32
  }

  lemma ScriptsBound(w: Btc, inputs: seq<Utxo>)
    requires Sane(w) && SpendableInputs(w, inputs) && ContractTags(inputs)
    ensures WitnessDataSize(WitnessScripts(w, inputs)) <= 186 * |inputs|
  {
    var scripts := WitnessScripts(w, inputs);
    forall s | s in scripts ensures |s| <= 111 {
      var i :| 0 <= i < |inputs| && scripts[i] == s;
      WitnessScriptLength(w, inputs[i].tag);
    }
    WitnessDataBound(scripts, 111);
  }

  lemma MulMonotone(rate: int, x: int, y: int)
    requires 0 <= rate && x <= y
    ensures rate * x <= rate * y
  {
  }

  // ---------------------------------------------------------------- change indexing

  /** Record of output `vout` of one of the contract's own spends. */
  function ChangeUtxo(txId: TxId, vout: Uint32, out: TxOut): Utxo {
    Utxo(txId, vout, out.value, out.pkScript, None)
  }

  predicate HasOneAddress(w: Btc, out: TxOut) {
    var addrs := w.addrsOf(out.pkScript);
    addrs.Some? && |addrs.value| == 1
  }

  predicate EachHasOneAddress(w: Btc, outs: seq<TxOut>, n: nat)
    requires n <= |outs|
  {
    forall i :: 0 <= i < n ==> HasOneAddress(w, outs[i])
  }

  predicate PaysTo(w: Btc, out: TxOut, address: string) {
    w.addrsOf(out.pkScript) == Some([address])
  }

  /** The outputs paying the address, in output order. */
  function OutputsPaying(w: Btc, txId: TxId, outs: seq<TxOut>, address: string): (r: seq<Utxo>)
    requires |outs| <= 0x1_0000_0000
    ensures |r| <= |outs|
  {
    if outs == [] then [] else
    var n := |outs| - 1;
    OutputsPaying(w, txId, outs[..n], address)
    + if PaysTo(w, outs[n], address) then [ChangeUtxo(txId, n, outs[n])] else []
  }

  /** No output that pays the address is missed. */
  lemma {:induction false} PayingComplete(w: Btc, txId: TxId, outs: seq<TxOut>, address: string, i: nat)
    requires i < |outs| <= 0x1_0000_0000 && PaysTo(w, outs[i], address)
    ensures ChangeUtxo(txId, i, outs[i]) in OutputsPaying(w, txId, outs, address)
  {
    hide PaysTo;
    if i < |outs| - 1 {
      PayingComplete(w, txId, outs[..|outs| - 1], address, i);
    }
  }

  /** A slice of pointers: found records, nil in the slots that stayed empty. */
  function Slots(found: seq<Utxo>, capacity: nat): (r: seq<Option<Utxo>>)
  {
    seq(|found|, i requires 0 <= i < |found| => Some(found[i]))
    + seq(if |found| < capacity then capacity - |found| else 0, i => None)
  }

  predicate StorableSlots(slots: seq<Option<Utxo>>) {
    forall i :: 0 <= i < |slots| && slots[i].Some? ==> slots[i].value.Storable()
  }

  /** What indexUnconfimedOutputs returns. */
  function ChangeSlots(w: Btc, tx: MsgTx, changeAddress: string): (r: Result<seq<Option<Utxo>>>)
    requires 1 <= |tx.txOut| <= 0x1_0000_0000
  {
    if EachHasOneAddress(w, tx.txOut, |tx.txOut|)
    then Ok(Slots(OutputsPaying(w, TxID(w, tx), tx.txOut, changeAddress), |tx.txOut| - 1))
    else Err(ErrTransaction)
  }

  lemma SlotsStep(found: seq<Utxo>, u: Utxo, capacity: nat)
    ensures var slots := Slots(found, capacity);
      Slots(found + [u], capacity) == if |found| < |slots| then slots[|found| := Some(u)] else slots + [Some(u)]
  {
  }

  lemma PayingStep(w: Btc, txId: TxId, outs: seq<TxOut>, index: nat, address: string)
    requires index < |outs| <= 0x1_0000_0000
    ensures OutputsPaying(w, txId, outs[..index + 1], address)
      == OutputsPaying(w, txId, outs[..index], address)
         + if PaysTo(w, outs[index], address) then [ChangeUtxo(txId, index, outs[index])] else []
  {
    assert outs[..index + 1][..index] == outs[..index];
  }

  /** The slots holding the records found so far, and the index of the next one to fill. */
  ghost function Filled(found: seq<Utxo>, outputs: nat): (r: (seq<Option<Utxo>>, nat))
    requires outputs > 0
  {
    (Slots(found, outputs - 1), if |found| < outputs then |found| else outputs - 1)
  }

  lemma FilledStep(found: seq<Utxo>, u: Utxo, outputs: nat)
    requires |found| < outputs
    ensures var (slots, i) := Filled(found, outputs);
      Filled(found + [u], outputs) == if i < |slots| then (slots[i := Some(u)], i + 1) else (slots + [Some(u)], i)
  {
    SlotsStep(found, u, outputs - 1);
  }

  ghost function SlotsAfter(w: Btc, tx: MsgTx, address: string, n: nat): (r: (seq<Option<Utxo>>, nat))
    requires n <= |tx.txOut| && 1 <= |tx.txOut| <= 0x1_0000_0000
  {
    Filled(OutputsPaying(w, TxID(w, tx), tx.txOut[..n], address), |tx.txOut|)
  }

  lemma SlotsBounds(w: Btc, tx: MsgTx, address: string)
    requires 1 <= |tx.txOut| <= 0x1_0000_0000
    ensures SlotsAfter(w, tx, address, 0) == (seq(|tx.txOut| - 1, i => None), 0)
    ensures SlotsAfter(w, tx, address, |tx.txOut|).0
      == Slots(OutputsPaying(w, TxID(w, tx), tx.txOut, address), |tx.txOut| - 1)
    ensures EachHasOneAddress(w, tx.txOut, 0)
  {
    assert tx.txOut[..|tx.txOut|] == tx.txOut;
    assert OutputsPaying(w, TxID(w, tx), tx.txOut[..0], address) == [];
    assert Slots([], |tx.txOut| - 1) == seq(|tx.txOut| - 1, i => None);
  }

  /** One output more: the next slot is filled, or a slot appended, when it pays the address. */
  lemma ChangeStep(w: Btc, tx: MsgTx, address: string, n: nat)
    requires n < |tx.txOut| <= 0x1_0000_0000
    ensures var (slots, i) := SlotsAfter(w, tx, address, n);
      var u := Some(ChangeUtxo(TxID(w, tx), n, tx.txOut[n]));
      SlotsAfter(w, tx, address, n + 1)
      == if !PaysTo(w, tx.txOut[n], address) then (slots, i)
         else if i < |slots| then (slots[i := u], i + 1)
         else (slots + [u], i)
  {
    PayingStep(w, TxID(w, tx), tx.txOut, n, address);
    hide Slots, OutputsPaying, PaysTo, TxID, Filled, ChangeUtxo;
    var found := OutputsPaying(w, TxID(w, tx), tx.txOut[..n], address);
    if PaysTo(w, tx.txOut[n], address) {
      FilledStep(found, ChangeUtxo(TxID(w, tx), n, tx.txOut[n]), |tx.txOut|);
    } else {
      assert found + [] == found;
    }
  }

  lemma OneAddress(w: Btc, outs: seq<TxOut>, n: nat, address: string)
    requires n < |outs|
    ensures EachHasOneAddress(w, outs, n + 1) <==> EachHasOneAddress(w, outs, n) && HasOneAddress(w, outs[n])
    ensures EachHasOneAddress(w, outs, |outs|) ==> HasOneAddress(w, outs[n])
    ensures var addrs := w.addrsOf(outs[n].pkScript);
      && (HasOneAddress(w, outs[n]) <==> addrs.Some? && |addrs.value| == 1)
      && (HasOneAddress(w, outs[n]) ==> (PaysTo(w, outs[n], address) <==> addrs.value[0] == address))
  {
    var addrs := w.addrsOf(outs[n].pkScript);
    if addrs.Some? && |addrs.value| == 1 {
      assert addrs.value == [addrs.value[0]];
    }
  }

  method IndexUnconfirmedOutputs(w: Btc, tx: MsgTx, changeAddress: string) returns (r: Result<seq<Option<Utxo>>>)
    requires 1 <= |tx.txOut| <= 0x1_0000_0000
    ensures r == ChangeSlots(w, tx, changeAddress)
  {
    hide Slots, OutputsPaying, TxID, PaysTo, HasOneAddress, EachHasOneAddress, ChangeUtxo, SlotsAfter;
    SlotsBounds(w, tx, changeAddress);
    var utxos: seq<Option<Utxo>> := seq(|tx.txOut| - 1, i => None);
    var i := 0;
    for index := 0 to |tx.txOut|
      invariant EachHasOneAddress(w, tx.txOut, index)
      invariant (utxos, i) == SlotsAfter(w, tx, changeAddress, index)
    {
      ChangeStep(w, tx, changeAddress, index);
      OneAddress(w, tx.txOut, index, changeAddress);
      var addrs := w.addrsOf(tx.txOut[index].pkScript);
      if addrs.None? || |addrs.value| != 1 {
        return Err(ErrTransaction);
      }
      if addrs.value[0] == changeAddress {
        var utxo := ChangeUtxo(TxID(w, tx), index, tx.txOut[index]);
        if i < |utxos| {
          utxos := utxos[i := Some(utxo)];
          i := i + 1;
        } else {
          utxos := utxos + [Some(utxo)];
        }
      }
    }
    r := Ok(utxos);
  }

  /** Change indexing succeeds exactly when every output's script names one address, no more and no fewer. */
  lemma ChangeSlotsExact(w: Btc, tx: MsgTx, changeAddress: string)
    requires 1 <= |tx.txOut| <= 0x1_0000_0000
    ensures ChangeSlots(w, tx, changeAddress).Ok? <==>
      forall i :: 0 <= i < |tx.txOut| ==>
        w.addrsOf(tx.txOut[i].pkScript).Some? && |w.addrsOf(tx.txOut[i].pkScript).value| == 1
    ensures ChangeSlots(w, tx, changeAddress).Err? ==> ChangeSlots(w, tx, changeAddress) == Err(ErrTransaction)
  {
    hide OutputsPaying, TxID, Slots;
    forall i | 0 <= i < |tx.txOut|
      ensures HasOneAddress(w, tx.txOut[i]) <==>
        w.addrsOf(tx.txOut[i].pkScript).Some? && |w.addrsOf(tx.txOut[i].pkScript).value| == 1
    {
    }
  }

  // ---------------------------------------------------------------- sizes written out

  function TotalLength(scripts: seq<Bytes>): nat {
    if scripts == [] then 0 else |scripts[0]| + TotalLength(scripts[1..])
  }

  lemma {:induction false} TotalLengthLast(scripts: seq<Bytes>, last: Bytes)
    ensures TotalLength(scripts + [last]) == TotalLength(scripts) + |last|
  {
    if scripts == [] {
      assert [last][1..] == [];
    } else {
      assert (scripts + [last])[0] == scripts[0] && (scripts + [last])[1..] == scripts[1..] + [last];
      TotalLengthLast(scripts[1..], last);
    }
  }

  lemma {:induction false} WitnessDataExact(scripts: seq<Bytes>)
    ensures WitnessDataSize(scripts) == 75 * |scripts| + TotalLength(scripts)
  {
    if scripts != [] {
      var n := |scripts| - 1;
      WitnessDataExact(scripts[..n]);
      TotalLengthLast(scripts[..n], scripts[n]);
      assert scripts == scripts[..n] + [scripts[n]];
    }
  }

  /** The virtual size a spend of fewer than 253 inputs to a script of fewer than 253 bytes is charged for: 10
      bytes of overhead, 41 an input, 9 and the script for the destination, 43 a change output, a quarter,
      rounded up, of 75 bytes and the witness script an input, and 2. */
  lemma SpendSizeExact(w: Btc, inputs: seq<Utxo>, destScript: Bytes, changeOutputs: nat)
    requires Sane(w) && SpendableInputs(w, inputs) && |inputs| < 253 && |destScript| < 253
    ensures SpendVSize(w, inputs, destScript, changeOutputs)
         == 10 + 41 * |inputs| + 9 + |destScript| + 43 * changeOutputs
            + (75 * |inputs| + TotalLength(WitnessScripts(w, inputs)) + 3) / 4 + 2
  {
    assert TxOutSize(ChangeScript(w)) == 43;
    hide Sane, WitnessScripts, WitnessDataSize, TotalLength, ChangeScript;
    WitnessDataExact(WitnessScripts(w, inputs));
    var base := 10 + 41 * |inputs| + 9 + |destScript| + 43 * changeOutputs;
    var data := WitnessDataSize(WitnessScripts(w, inputs));
    assert base * 3 + (base + data) + 3 == 4 * base + (data + 3);
  }
}
