// Account balances: checked deductions under intents (utils.go) and transfers
// (handlers.go).

module Accounts {
  import opened Wrappers
  import opened Int64
  import opened Text
  import opened World

  /** Balances by account. Zero is never stored: setAccBal deletes the key instead. */
  type Balances = map<string, Int64>

  function GetBal(b: Balances, account: string): Int64 {
    if account in b then b[account] else 0
  }

  function SetBal(b: Balances, account: string, newBal: Int64): (b': Balances)
    ensures GetBal(b', account) == newBal
    ensures forall a :: a != account ==> GetBal(b', a) == GetBal(b, a)
  {
    if newBal == 0 then b - {account} else b[account := newBal]
  }

  ghost function SumBalances(b: Balances): int {
    if b == map[] then 0 else
    var a :| a in b;
    b[a] + SumBalances(b - {a})
  }

  /** The sum does not depend on the order of summation. */
  lemma {:induction false} SumWithout(b: Balances, a: string)
    requires a in b
    ensures SumBalances(b) == b[a] + SumBalances(b - {a})
    decreases |b|
  {
    var c :| c in b && SumBalances(b) == b[c] + SumBalances(b - {c});
    if c != a {
      SumWithout(b - {c}, a);
      SumWithout(b - {a}, c);
      assert b - {c} - {a} == b - {a} - {c};
    }
  }

  lemma SumAfterSet(b: Balances, account: string, newBal: Int64)
    ensures SumBalances(SetBal(b, account, newBal)) == SumBalances(b) - GetBal(b, account) + newBal
  {
    var b' := SetBal(b, account, newBal);
    assert b' - {account} == b - {account};
    if account in b {
      SumWithout(b, account);
    } else {
      assert b - {account} == b;
    }
    if account in b' {
      SumWithout(b', account);
    } else {
      assert b' - {account} == b';
    }
  }

  /** Every stored balance is positive. */
  ghost predicate AllPositive(b: Balances) {
    forall a :: a in b ==> b[a] > 0
  }

  lemma {:induction false} SumNotNegative(b: Balances)
    requires AllPositive(b)
    ensures SumBalances(b) >= 0
    decreases |b|
  {
    if b != map[] {
      var a :| a in b && SumBalances(b) == b[a] + SumBalances(b - {a});
      SumNotNegative(b - {a});
    }
  }

  lemma BalanceBelowSum(b: Balances, a: string)
    requires AllPositive(b)
    ensures 0 <= GetBal(b, a) <= SumBalances(b)
  {
    SumNotNegative(b - {a});
    if a in b {
      SumWithout(b, a);
    } else {
      assert b - {a} == b;
    }
  }

  // ------------------------------------------------------------------ intents

  const INTENT_TRANSFER_TYPE := "transfer.allow"
  const INTENT_CONTRACT_ID_KEY := "contract_id"
  const INTENT_LIMIT_KEY := "limit"

  predicate Applies(intent: Intent, contractId: string) {
    && intent.kind == INTENT_TRANSFER_TYPE
    && INTENT_CONTRACT_ID_KEY in intent.args && intent.args[INTENT_CONTRACT_ID_KEY] == contractId
    && INTENT_LIMIT_KEY in intent.args
  }

  /** The sender's limit: that of the first intent that applies, 0 when none does. */
  function SenderLimit(intents: seq<Intent>, contractId: string): (r: Result<Int64>)
  {
    if intents == [] then Ok(0)
    else if Applies(intents[0], contractId) then
      var limit := ParseInt64(intents[0].args[INTENT_LIMIT_KEY]);
      if limit.None? then Err(ErrIntent) else Ok(limit.value)
    else SenderLimit(intents[1..], contractId)
  }

  /** strings.Replace(s, ".", "", 1) */
  function WithoutFirstDot(s: string): string {
    if s == [] then [] else if s[0] == '.' then s[1..] else [s[0]] + WithoutFirstDot(s[1..])
  }

  /** The caller's limit: that of the last intent that applies, decimal point dropped. */
  function CallerLimit(intents: seq<Intent>, contractId: string, soFar: Int64): (r: Result<Int64>)
    decreases |intents|
  {
    if intents == [] then Ok(soFar)
    else if Applies(intents[0], contractId) then
      var limit := ParseInt64(WithoutFirstDot(intents[0].args[INTENT_LIMIT_KEY]));
      if limit.None? then Err(ErrIntent) else CallerLimit(intents[1..], contractId, limit.value)
    else CallerLimit(intents[1..], contractId, soFar)
  }

  /** How much one call may draw from an account. */
  function DrawLimit(env: Env, account: string): (r: Result<Int64>)
  {
    if account == env.sender then SenderLimit(env.senderIntents, env.contractId)
    else if account == env.caller then CallerLimit(env.callerIntents, env.contractId, 0)
    else Err(ErrIntent)
  }

  /** checkAndDeductBalance */
  function Deduct(env: Env, b: Balances, account: string, amount: Int64): (r: Result<Balances>)
  {
    var bal := GetBal(b, account);
    if bal < amount then Err(ErrBalance) else
    var limit :- DrawLimit(env, account);
    if limit < amount then Err(ErrIntent) else
    var newBal :- SafeSubtract64(bal, amount);
    Ok(SetBal(b, account, newBal))
  }

  /** A deduction succeeds exactly when balance and per-call limit both cover it, and then
      lowers the sum by the amount and no balance below zero. */
  lemma DeductEffect(env: Env, b: Balances, account: string, amount: Int64)
    requires AllPositive(b)
    ensures 0 <= amount ==>
      (Deduct(env, b, account, amount).Ok?
       <==> amount <= GetBal(b, account) && DrawLimit(env, account).Ok? && amount <= DrawLimit(env, account).value)
    ensures Deduct(env, b, account, amount).Ok? ==>
      var b' := Deduct(env, b, account, amount).value;
      && AllPositive(b')
      && amount <= GetBal(b, account) && GetBal(b', account) == GetBal(b, account) - amount
      && (forall a :: a != account ==> GetBal(b', a) == GetBal(b, a))
      && SumBalances(b') == SumBalances(b) - amount
  {
    if Deduct(env, b, account, amount).Ok? {
      SumAfterSet(b, account, GetBal(b, account) - amount);
    }
  }

  lemma {:induction false} SenderLimitErrors(intents: seq<Intent>, contractId: string)
    ensures SenderLimit(intents, contractId).Err? ==> SenderLimit(intents, contractId).error == ErrIntent
  {
    hide Applies;
    if intents != [] {
      SenderLimitErrors(intents[1..], contractId);
    }
  }

  lemma {:induction false} CallerLimitErrors(intents: seq<Intent>, contractId: string, soFar: Int64)
    ensures CallerLimit(intents, contractId, soFar).Err? ==> CallerLimit(intents, contractId, soFar).error == ErrIntent
    decreases |intents|
  {
    if intents != [] {
      var next :=
        if Applies(intents[0], contractId)
        then ParseInt64(WithoutFirstDot(intents[0].args[INTENT_LIMIT_KEY])) else Some(soFar);
      if next.Some? {
        CallerLimitErrors(intents[1..], contractId, next.value);
      }
    }
  }

  /** A deduction is refused for want of funds, of an intent, or because the difference leaves int64. */
  lemma DeductErrors(env: Env, b: Balances, account: string, amount: Int64)
    ensures Deduct(env, b, account, amount).Err? ==>
      Deduct(env, b, account, amount).error in {ErrBalance, ErrIntent, ErrArithmetic}
  {
    SenderLimitErrors(env.senderIntents, env.contractId);
    CallerLimitErrors(env.callerIntents, env.contractId, 0);
    hide SenderLimit, CallerLimit;
  }

  // ------------------------------------------------------- what the limits are

  /** An intent of the token-transfer kind, for this contract, that names a limit. */
  ghost predicate Names(intent: Intent, contractId: string, limit: string) {
    && intent.kind == "transfer.allow"
    && "contract_id" in intent.args && intent.args["contract_id"] == contractId
    && "limit" in intent.args && intent.args["limit"] == limit
  }

  ghost predicate NamesLimit(intent: Intent, contractId: string) {
    exists limit: string :: Names(intent, contractId, limit)
  }

  /** The i-th intent is the first that applies, with this limit. */
  ghost predicate FirstLimit(intents: seq<Intent>, contractId: string, i: nat, limit: string) {
    && i < |intents| && Names(intents[i], contractId, limit)
    && forall j :: 0 <= j < i ==> !NamesLimit(intents[j], contractId)
  }

  /** The i-th intent is the last that applies, with this limit. */
  ghost predicate LastLimit(intents: seq<Intent>, contractId: string, i: nat, limit: string) {
    && i < |intents| && Names(intents[i], contractId, limit)
    && forall j :: i < j < |intents| ==> !NamesLimit(intents[j], contractId)
  }

  ghost predicate NoneApplies(intents: seq<Intent>, contractId: string) {
    forall j :: 0 <= j < |intents| ==> !NamesLimit(intents[j], contractId)
  }

  lemma AppliesMeaning(intent: Intent, contractId: string)
    ensures Applies(intent, contractId) <==> NamesLimit(intent, contractId)
    ensures forall limit: string :: Names(intent, contractId, limit) ==>
      Applies(intent, contractId) && intent.args[INTENT_LIMIT_KEY] == limit
  {
    if Applies(intent, contractId) {
      assert Names(intent, contractId, intent.args["limit"]);
    }
  }

  /** The sender's limit is the number in the first intent that applies, whatever comes after; an error if
      that is no number; and nothing without such an intent. */
  lemma {:induction false} SenderLimitExact(intents: seq<Intent>, contractId: string)
    ensures NoneApplies(intents, contractId) ==> SenderLimit(intents, contractId) == Ok(0)
    ensures forall i: nat, limit :: FirstLimit(intents, contractId, i, limit) ==>
      SenderLimit(intents, contractId)
      == if ParseInt64(limit).Some? then Ok(ParseInt64(limit).value) else Err(ErrIntent)
  {
    hide ParseInt64, Applies, Names, NamesLimit;
    if intents != [] {
      AppliesMeaning(intents[0], contractId);
      SenderLimitExact(intents[1..], contractId);
      forall i: nat, limit | FirstLimit(intents, contractId, i, limit)
        ensures SenderLimit(intents, contractId)
             == if ParseInt64(limit).Some? then Ok(ParseInt64(limit).value) else Err(ErrIntent)
      {
        if i > 0 {
          FirstLimitLater(intents, contractId, i, limit);
        }
      }
    }
  }

  lemma FirstLimitLater(intents: seq<Intent>, contractId: string, i: nat, limit: string)
    requires i > 0 && FirstLimit(intents, contractId, i, limit)
    ensures FirstLimit(intents[1..], contractId, i - 1, limit) && !NamesLimit(intents[0], contractId)
  {
  }

  /** Every intent that applies names a number, once its first decimal point is dropped. */
  ghost predicate AllNumbers(intents: seq<Intent>, contractId: string) {
    forall j, limit :: 0 <= j < |intents| && Names(intents[j], contractId, limit) ==>
      ParseInt64(WithoutFirstDot(limit)).Some?
  }

  lemma AllNumbersSplit(intents: seq<Intent>, contractId: string)
    requires intents != []
    ensures AllNumbers(intents, contractId) <==>
      && AllNumbers(intents[1..], contractId)
      && (Applies(intents[0], contractId) ==>
           ParseInt64(WithoutFirstDot(intents[0].args[INTENT_LIMIT_KEY])).Some?)
  {
    AppliesMeaning(intents[0], contractId);
    hide ParseInt64, WithoutFirstDot;
    if AllNumbers(intents, contractId) {
      forall j, limit | 0 <= j < |intents| - 1 && Names(intents[1..][j], contractId, limit)
        ensures ParseInt64(WithoutFirstDot(limit)).Some?
      {
        assert Names(intents[j + 1], contractId, limit);
      }
      if Applies(intents[0], contractId) {
        assert Names(intents[0], contractId, intents[0].args[INTENT_LIMIT_KEY]);
      }
    }
    if AllNumbers(intents[1..], contractId)
       && (Applies(intents[0], contractId) ==>
             ParseInt64(WithoutFirstDot(intents[0].args[INTENT_LIMIT_KEY])).Some?)
    {
      forall j, limit | 0 <= j < |intents| && Names(intents[j], contractId, limit)
        ensures ParseInt64(WithoutFirstDot(limit)).Some?
      {
        if j > 0 {
          assert Names(intents[1..][j - 1], contractId, limit);
        }
      }
    }
  }

  /** The caller's limit is the number in the last intent that applies, provided every one that applies
      names a number; nothing without such an intent. */
  lemma {:induction false} CallerLimitExact(intents: seq<Intent>, contractId: string, soFar: Int64)
    ensures !AllNumbers(intents, contractId) ==> CallerLimit(intents, contractId, soFar) == Err(ErrIntent)
    ensures NoneApplies(intents, contractId) ==> CallerLimit(intents, contractId, soFar) == Ok(soFar)
    ensures forall i: nat, limit :: AllNumbers(intents, contractId) && LastLimit(intents, contractId, i, limit) ==>
      && ParseInt64(WithoutFirstDot(limit)).Some?
      && CallerLimit(intents, contractId, soFar) == Ok(ParseInt64(WithoutFirstDot(limit)).value)
    decreases |intents|
  {
    if intents != [] {
      AppliesMeaning(intents[0], contractId);
      AllNumbersSplit(intents, contractId);
      hide ParseInt64, WithoutFirstDot, Applies, Names, NamesLimit, AllNumbers;
      var rest := intents[1..];
      var next :=
        if Applies(intents[0], contractId)
        then ParseInt64(WithoutFirstDot(intents[0].args[INTENT_LIMIT_KEY])) else Some(soFar);
      if next.Some? {
        CallerLimitExact(rest, contractId, next.value);
        forall i: nat, limit | AllNumbers(intents, contractId) && LastLimit(intents, contractId, i, limit)
          ensures ParseInt64(WithoutFirstDot(limit)).Some?
          ensures CallerLimit(intents, contractId, soFar) == Ok(ParseInt64(WithoutFirstDot(limit)).value)
        {
          if i > 0 {
            assert LastLimit(rest, contractId, i - 1, limit);
          } else {
            assert NoneApplies(rest, contractId);
          }
        }
        if NoneApplies(intents, contractId) {
          assert NoneApplies(rest, contractId);
        }
      }
    }
  }

  /** strings.Replace takes the first point out and nothing else. */
  lemma {:induction false} FirstDotDropped(a: string, b: string)
    requires '.' !in a
    ensures WithoutFirstDot(a) == a && WithoutFirstDot(a + "." + b) == a + b
  {
    var s := a + "." + b;
    if a == [] {
      assert s == "." + b && s[1..] == b;
    } else {
      assert a[0] in a && forall c :: c in a[1..] ==> c in a;
      FirstDotDropped(a[1..], b);
      assert s[0] == a[0] && s[1..] == a[1..] + "." + b;
      assert a == [a[0]] + a[1..] && a + b == [a[0]] + (a[1..] + b);
      assert WithoutFirstDot(s) == [a[0]] + WithoutFirstDot(s[1..]);
    }
  }

  /** When a positive amount can be drawn from the sender: exactly when the balance covers it and the first
      intent that applies names a number that does. */
  lemma SenderDrawExact(env: Env, b: Balances, amount: Int64)
    requires amount > 0
    ensures Deduct(env, b, env.sender, amount).Ok? <==>
      && amount <= GetBal(b, env.sender)
      && exists i: nat, limit :: FirstLimit(env.senderIntents, env.contractId, i, limit) && Reaches(limit, amount)
    ensures amount <= GetBal(b, env.sender) && NoneApplies(env.senderIntents, env.contractId) ==>
      Deduct(env, b, env.sender, amount) == Err(ErrIntent)
    ensures Deduct(env, b, env.sender, amount).Ok? ==>
      Deduct(env, b, env.sender, amount).value == SetBal(b, env.sender, GetBal(b, env.sender) - amount)
  {
    SenderLimitExact(env.senderIntents, env.contractId);
    if !NoneApplies(env.senderIntents, env.contractId) {
      var i, limit := SomeFirst(env.senderIntents, env.contractId);
    }
    hide ParseInt64, SenderLimit, CallerLimit, FirstLimit, NoneApplies;
  }

  /** The text is a number of at least the amount. */
  ghost predicate Reaches(limit: string, amount: Int64) {
    ParseInt64(limit).Some? && amount <= ParseInt64(limit).value
  }

  lemma {:induction false} SomeFirst(intents: seq<Intent>, contractId: string) returns (i: nat, limit: string)
    requires !NoneApplies(intents, contractId)
    ensures FirstLimit(intents, contractId, i, limit)
  {
    hide Names;
    if NamesLimit(intents[0], contractId) {
      limit :| Names(intents[0], contractId, limit);
      i := 0;
    } else {
      var j;
      j, limit := SomeFirst(intents[1..], contractId);
      i := j + 1;
    }
  }

  lemma {:induction false} SomeLast(intents: seq<Intent>, contractId: string) returns (i: nat, limit: string)
    requires !NoneApplies(intents, contractId)
    ensures LastLimit(intents, contractId, i, limit)
  {
    hide Names;
    var n := |intents| - 1;
    if NamesLimit(intents[n], contractId) {
      limit :| Names(intents[n], contractId, limit);
      i := n;
    } else {
      i, limit := SomeLast(intents[..n], contractId);
    }
  }

  /** The same for a caller that is not the sender: every intent that applies names a number, and the last
      one, its first decimal point dropped, covers the amount. */
  lemma CallerDrawExact(env: Env, b: Balances, amount: Int64)
    requires amount > 0 && env.caller != env.sender
    ensures Deduct(env, b, env.caller, amount).Ok? <==>
      && amount <= GetBal(b, env.caller) && AllNumbers(env.callerIntents, env.contractId)
      && exists i: nat, limit ::
           LastLimit(env.callerIntents, env.contractId, i, limit) && Reaches(WithoutFirstDot(limit), amount)
    ensures amount <= GetBal(b, env.caller) && NoneApplies(env.callerIntents, env.contractId) ==>
      Deduct(env, b, env.caller, amount) == Err(ErrIntent)
    ensures Deduct(env, b, env.caller, amount).Ok? ==>
      Deduct(env, b, env.caller, amount).value == SetBal(b, env.caller, GetBal(b, env.caller) - amount)
  {
    CallerLimitExact(env.callerIntents, env.contractId, 0);
    if !NoneApplies(env.callerIntents, env.contractId) {
      var i, limit := SomeLast(env.callerIntents, env.contractId);
    }
    hide ParseInt64, SenderLimit, CallerLimit, LastLimit, NoneApplies, AllNumbers, WithoutFirstDot;
  }

  /** Nothing can be drawn from an account that is neither the sender's nor the caller's. */
  lemma StrangerDraw(env: Env, b: Balances, account: string, amount: Int64)
    requires account != env.sender && account != env.caller
    ensures Deduct(env, b, account, amount) == Err(if GetBal(b, account) < amount then ErrBalance else ErrIntent)
  {
  }

  // ------------------------------------------------------------------ transfers

  datatype TransferParams = TransferParams(amount: string, to: string, from: string)

  /** HandleTransfer, on the balances. */
  function Transfer(w: Btc, env: Env, b: Balances, p: TransferParams): (r: Result<Balances>)
  {
    if !Authorised(env) then Err(ErrNoPermission) else
    var amount := ParseInt64(p.amount);
    if amount.None? || amount.value <= 0 then Err(ErrInput) else
    if !w.validAddress(p.to) then Err(ErrInput) else
    var source :- Payer(env, p.from);
    var b1 :- Deduct(env, b, source, amount.value);
    var newBal :- SafeAdd64(GetBal(b1, p.to), amount.value);
    Ok(SetBal(b1, p.to, newBal))
  }

  /** Whose balance a transfer draws on: the caller by default, the sender if named. */
  function Payer(env: Env, from: string): Result<string> {
    if from == "" || from == env.caller then Ok(env.caller)
    else if from == env.sender then Ok(env.sender)
    else Err(ErrInput)
  }

  /** A transfer moves the amount from payer to recipient and touches no other account; a
      self-transfer changes nothing; the sum is conserved and no balance goes negative. */
  lemma TransferEffect(w: Btc, env: Env, b: Balances, p: TransferParams)
    requires AllPositive(b) && Transfer(w, env, b, p).Ok?
    ensures var b' := Transfer(w, env, b, p).value;
      var amount := ParseInt64(p.amount).value;
      var payer := Payer(env, p.from).value;
      && AllPositive(b')
      && SumBalances(b') == SumBalances(b)
      && (payer == p.to ==> b' == b)
      && (payer != p.to ==>
        GetBal(b', payer) == GetBal(b, payer) - amount && GetBal(b', p.to) == GetBal(b, p.to) + amount)
      && (forall a :: a != payer && a != p.to ==> GetBal(b', a) == GetBal(b, a))
  {
    var amount := ParseInt64(p.amount).value;
    var payer := Payer(env, p.from).value;
    DeductEffect(env, b, payer, amount);
    var b1 := Deduct(env, b, payer, amount).value;
    SumAfterSet(b1, p.to, GetBal(b1, p.to) + amount);
    if payer == p.to {
      assert payer in b;
      assert Transfer(w, env, b, p).value == b;
    }
  }

  /** When a transfer goes through, and whose balance it draws on: the sender authorised the call, the
      amount is a positive number, the recipient is valid, the payer is the caller - by default or by
      name - or else the sender by name, the payer can be drawn on, and the credit fits. */
  lemma TransferExact(w: Btc, env: Env, b: Balances, p: TransferParams)
    ensures Transfer(w, env, b, p).Ok? <==>
      && env.sender in env.requiredAuths
      && ParseInt64(p.amount).Some? && ParseInt64(p.amount).value > 0
      && w.validAddress(p.to)
      && p.from in {"", env.caller, env.sender}
      && var payer := if p.from == "" || p.from == env.caller then env.caller else env.sender;
         var drawn := Deduct(env, b, payer, ParseInt64(p.amount).value);
         drawn.Ok? && InInt64(GetBal(drawn.value, p.to) + ParseInt64(p.amount).value)
    ensures Transfer(w, env, b, p).Ok? ==>
      Payer(env, p.from) == Ok(if p.from == "" || p.from == env.caller then env.caller else env.sender)
  {
    hide ParseInt64, Deduct;
  }

  /** When every balance is covered by a sum within int64, crediting the recipient cannot fail:
      a transfer is refused only for want of permission, form, funds or intent. */
  lemma TransferCreditFits(env: Env, b: Balances, payer: string, to: string, amount: Int64)
    requires AllPositive(b) && SumBalances(b) <= MAX64 && amount > 0
    requires Deduct(env, b, payer, amount).Ok?
    ensures SafeAdd64(GetBal(Deduct(env, b, payer, amount).value, to), amount).Ok?
  {
    DeductEffect(env, b, payer, amount);
    BalanceBelowSum(Deduct(env, b, payer, amount).value, to);
  }

  /** Which error a transfer that does not go through reports: permission; then amount, recipient and payer;
      then what the deduction reports; then the credit. */
  lemma TransferErrors(w: Btc, env: Env, b: Balances, p: TransferParams)
    ensures var amount := ParseInt64(p.amount);
      var payer := if p.from == "" || p.from == env.caller then env.caller else env.sender;
      if env.sender !in env.requiredAuths then Transfer(w, env, b, p) == Err(ErrNoPermission)
      else if amount.None? || amount.value <= 0 || !w.validAddress(p.to) || p.from !in {"", env.caller, env.sender}
      then Transfer(w, env, b, p) == Err(ErrInput)
      else
        var drawn := Deduct(env, b, payer, amount.value);
        && (drawn.Err? ==> Transfer(w, env, b, p) == Err(drawn.error))
        && (drawn.Ok? && !InInt64(GetBal(drawn.value, p.to) + amount.value) ==>
              Transfer(w, env, b, p) == Err(ErrArithmetic))
  {
    hide ParseInt64, Deduct;
  }
}
