// A reader and an interpreter for the scripts the contract builds, and what its
// witness scripts demand of a spender (createP2WSHAddressWithBackup in utils.go).

module Scripts {
  import opened Wrappers
  import opened Bytes
  import opened Types
  import opened World

  // ---------------------------------------------------------------- reading

  datatype Op = Push(data: Bytes) | Code(op: Byte)

  /** The first operation of a script and what follows it: small constants, direct pushes, one-byte-length
      pushes; any other byte is an operation code. */
  function ReadOp(script: Bytes): (r: Option<(Op, Bytes)>)
    requires script != []
    ensures r.Some? ==> |r.value.1| < |script|
  {
    var b, rest := script[0], script[1..];
    if b <= 75 then
      if b <= |rest| then Some((Push(rest[..b]), rest[b..])) else None
    else if b == 0x4c then
      if rest != [] && rest[0] < |rest| then Some((Push(rest[1..1 + rest[0]]), rest[1 + rest[0]..])) else None
    else if b == 0x4f then Some((Push([0x81]), rest))
    else if 0x51 <= b <= 0x60 then Some((Push([b - 0x50]), rest))
    else Some((Code(b), rest))
  }

  function Parse(script: Bytes): (ops: Option<seq<Op>>)
    decreases |script|
  {
    if script == [] then Some([]) else
    var first := ReadOp(script);
    if first.None? then None else
    var others := Parse(first.value.1);
    if others.None? then None else Some([first.value.0] + others.value)
  }

  // ---------------------------------------------------------------- running

  const OP_IF: Byte := 0x63
  const OP_ELSE: Byte := 0x67
  const OP_ENDIF: Byte := 0x68
  const OP_DROP: Byte := 0x75
  const OP_CHECKSIG: Byte := 0xac
  const OP_CHECKSIGVERIFY: Byte := 0xad
  const OP_CHECKSEQUENCEVERIFY: Byte := 0xb2

  /** What a spender brings: valid signatures, and the input's relative lock in blocks. */
  datatype Spender = Spender(signs: (Bytes, Bytes) -> bool, sequence: nat)

  /** The stack, its top last, and the open conditions, the innermost last. */
  datatype Machine = Machine(stack: seq<Bytes>, conditions: seq<bool>)

  /** A stack element is false when it is zero: all bytes 0, but for a sign bit in the last. */
  predicate Truthy(x: Bytes) {
    exists i :: 0 <= i < |x| && x[i] != 0 && !(i == |x| - 1 && x[i] == 0x80)
  }

  /** A little-endian script number of up to four bytes, when it is not negative. */
  function Number(x: Bytes): (n: Option<nat>)
  {
    if |x| > 4 || (x != [] && x[|x| - 1] >= 0x80) then None else Some(LittleEndianValue(x))
  }

  function LittleEndianValue(x: Bytes): nat {
    if x == [] then 0 else x[0] + 256 * LittleEndianValue(x[1..])
  }

  function Perform(op: Op, m: Machine, s: Spender): (r: Option<Machine>)
  {
    var running := false !in m.conditions;
    var n := |m.stack|;
    if op.Push? then Some(if running then m.(stack := m.stack + [op.data]) else m)
    else if op.op == OP_IF then
      if !running then Some(m.(conditions := m.conditions + [false]))
      else if n == 0 then None
      else Some(Machine(m.stack[..n - 1], m.conditions + [Truthy(m.stack[n - 1])]))
    else if op.op == OP_ELSE then
      var c := |m.conditions|;
      if c == 0 then None else Some(m.(conditions := m.conditions[..c - 1] + [!m.conditions[c - 1]]))
    else if op.op == OP_ENDIF then
      if m.conditions == [] then None else Some(m.(conditions := m.conditions[..|m.conditions| - 1]))
    else if !running then Some(m)
    else if op.op == OP_DROP then
      if n == 0 then None else Some(m.(stack := m.stack[..n - 1]))
    else if op.op == OP_CHECKSIG then
      if n < 2 then None
      else Some(m.(stack := m.stack[..n - 2] + [if s.signs(m.stack[n - 2], m.stack[n - 1]) then [1] else []]))
    else if op.op == OP_CHECKSIGVERIFY then
      if n < 2 || !s.signs(m.stack[n - 2], m.stack[n - 1]) then None else Some(m.(stack := m.stack[..n - 2]))
    else if op.op == OP_CHECKSEQUENCEVERIFY then
      if n == 0 then None else
      var number := Number(m.stack[n - 1]);
      if number.None? || s.sequence < number.value then None else Some(m)
    else None
  }

  function RunOps(ops: seq<Op>, m: Machine, s: Spender): (r: Option<Machine>)
    decreases |ops|
  {
    if ops == [] then Some(m) else
    var next := Perform(ops[0], m, s);
    if next.None? then None else RunOps(ops[1..], next.value, s)
  }

  /** A witness program accepts when exactly one true element is left and every condition is closed. */
  predicate Accepts(script: Bytes, stack: seq<Bytes>, s: Spender) {
    var ops := Parse(script);
    ops.Some? &&
    var end := RunOps(ops.value, Machine(stack, []), s);
    end.Some? && end.value.conditions == [] && |end.value.stack| == 1 && Truthy(end.value.stack[0])
  }

  // ---------------------------------------------------------------- what was built is what is read

  /** The number zero is pushed as the empty string. */
  function Pushed(data: Bytes): Bytes {
    if data == [0] then [] else data
  }

  lemma ParseFirst(script: Bytes, op: Op, rest: Bytes)
    requires script != [] && ReadOp(script) == Some((op, rest)) && Parse(rest).Some?
    ensures Parse(script) == Some([op] + Parse(rest).value)
  {
    hide ReadOp;
  }

  lemma ReadSmall(b: Byte, rest: Bytes)
    requires b == 0 || b == 0x4f || 0x51 <= b <= 0x60
    ensures ReadOp([b] + rest) == Some((Push(if b == 0 then [] else if b == 0x4f then [0x81] else [b - 0x50]), rest))
  {
    assert ([b] + rest)[1..] == rest && rest[..0] == [] && rest[0..] == rest;
  }

  lemma ReadDirect(data: Bytes, rest: Bytes)
    requires 1 <= |data| <= 75
    ensures ReadOp([|data|] + data + rest) == Some((Push(data), rest))
  {
    var tail := ([|data|] + data + rest)[1..];
    assert tail == data + rest && tail[..|data|] == data && tail[|data|..] == rest;
  }

  lemma ReadLong(data: Bytes, rest: Bytes)
    requires |data| <= 255
    ensures ReadOp([0x4c, |data|] + data + rest) == Some((Push(data), rest))
  {
    var tail := ([0x4c, |data|] + data + rest)[1..];
    assert tail[0] == |data| && |tail| == 1 + |data| + |rest|;
    assert tail[1..1 + |data|] == data && tail[1 + |data|..] == rest;
  }

  lemma ReadPush(data: Bytes, rest: Bytes)
    requires |data| <= 255
    ensures ReadOp(PushData(data) + rest) == Some((Push(Pushed(data)), rest))
  {
    hide ReadOp;
    if data == [] || data == [0] {
      ReadSmall(0, rest);
    } else if |data| == 1 && data[0] <= 16 {
      ReadSmall(0x50 + data[0], rest);
      assert data == [data[0]];
    } else if data == [0x81] {
      ReadSmall(0x4f, rest);
    } else if |data| <= 75 {
      ReadDirect(data, rest);
    } else {
      ReadLong(data, rest);
    }
  }

  lemma ParsePush(data: Bytes, rest: Bytes)
    requires |data| <= 255 && Parse(rest).Some?
    ensures Parse(PushData(data) + rest) == Some([Push(Pushed(data))] + Parse(rest).value)
  {
    ReadPush(data, rest);
    ParseFirst(PushData(data) + rest, Push(Pushed(data)), rest);
    hide Parse, ReadOp, PushData;
  }

  lemma ParseCode(op: Byte, rest: Bytes)
    requires op > 0x60 && Parse(rest).Some?
    ensures Parse([op] + rest) == Some([Code(op)] + Parse(rest).value)
  {
    assert ([op] + rest)[1..] == rest;
    ParseFirst([op] + rest, Code(op), rest);
    hide Parse;
  }

  /** The block count of the backup path: about a month, or two blocks off the main network. */
  function Delay(w: Btc): nat {
    if w.mainnet then 4320 else 2
  }

  function DelayPush(w: Btc): (push: Bytes)
    ensures |push| <= 2
  {
    if w.mainnet then [0xe0, 0x10] else [2]
  }

  function TagOps(tag: Option<Bytes>): seq<Op>
  {
    if tag == Some([]) then [Code(OP_CHECKSIG)]
    else [Code(OP_CHECKSIGVERIFY), Push(Pushed(if tag.Some? then tag.value else []))]
  }

  function PrimaryOps(w: Btc, tag: Option<Bytes>): seq<Op> {
    [Push(w.primaryKey)] + TagOps(tag)
  }

  function BackupOps(w: Btc): seq<Op> {
    [Push(DelayPush(w)), Code(OP_CHECKSEQUENCEVERIFY), Code(OP_DROP), Push(w.backupKey), Code(OP_CHECKSIG)]
  }

  function WitnessOps(w: Btc, tag: Option<Bytes>): seq<Op> {
    [Code(OP_IF)] + PrimaryOps(w, tag) + [Code(OP_ELSE)] + BackupOps(w) + [Code(OP_ENDIF)]
  }

  predicate CompressedKeys(w: Btc) {
    |w.primaryKey| == |w.backupKey| == 33
  }

  lemma DelayPushed(w: Btc)
    ensures PushCsvBlocks(w.mainnet) == PushData(DelayPush(w)) && Pushed(DelayPush(w)) == DelayPush(w)
    ensures Number(DelayPush(w)) == Some(Delay(w))
  {
    var x := DelayPush(w);
    if w.mainnet {
      assert x[1..] == [0x10] && x[1..][1..] == [];
      assert LittleEndianValue(x[1..][1..]) == 0 && LittleEndianValue(x[1..]) == 0x10;
    } else {
      assert x[1..] == [] && LittleEndianValue(x[1..]) == 0;
    }
    assert LittleEndianValue(x) == Delay(w);
  }

  lemma ParseBackup(w: Btc) returns (script: Bytes)
    requires CompressedKeys(w)
    ensures script == PushCsvBlocks(w.mainnet) + [0xb2, 0x75] + PushData(w.backupKey) + [0xac, 0x68]
    ensures Parse(script) == Some(BackupOps(w) + [Code(OP_ENDIF)])
  {
    DelayPushed(w);
    hide Parse, PushData, PushCsvBlocks, DelayPush, Number;
    var end: Bytes := [];
    assert Parse(end) == Some([]) by { ParseNothing(); }
    ParseCode(0x68, end);
    var a := [0x68] + end;
    ParseCode(0xac, a);
    var b := [0xac] + a;
    ParsePush(w.backupKey, b);
    var c := PushData(w.backupKey) + b;
    ParseCode(0x75, c);
    var d := [0x75] + c;
    ParseCode(0xb2, d);
    var e := [0xb2] + d;
    ParsePush(DelayPush(w), e);
    script := PushData(DelayPush(w)) + e;
    assert script == PushCsvBlocks(w.mainnet) + [0xb2, 0x75] + PushData(w.backupKey) + [0xac, 0x68];
    assert Pushed(w.backupKey) == w.backupKey;
    assert Parse(script).value == BackupOps(w) + [Code(OP_ENDIF)];
  }

  lemma ParseNothing()
    ensures Parse([]) == Some([])
  {
  }

  function TagBytesOf(tag: Option<Bytes>): Bytes {
    if tag.Some? then tag.value else []
  }

  lemma ParseTag(tag: Option<Bytes>, rest: Bytes) returns (script: Bytes)
    requires |TagBytesOf(tag)| <= 255 && Parse(rest).Some?
    ensures script == (if tag == Some([]) then [0xac] else [0xad] + PushData(TagBytesOf(tag))) + rest
    ensures Parse(script) == Some(TagOps(tag) + Parse(rest).value)
  {
    hide Parse, PushData;
    if tag == Some([]) {
      ParseCode(0xac, rest);
      script := [0xac] + rest;
      assert TagOps(tag) == [Code(OP_CHECKSIG)];
    } else {
      ParsePush(TagBytesOf(tag), rest);
      var a := PushData(TagBytesOf(tag)) + rest;
      ParseCode(0xad, a);
      script := [0xad] + a;
      assert script == ([0xad] + PushData(TagBytesOf(tag))) + rest;
      var verify, push := Code(OP_CHECKSIGVERIFY), Push(Pushed(TagBytesOf(tag)));
      assert TagOps(tag) == [verify, push];
      assert [verify] + ([push] + Parse(rest).value) == [verify, push] + Parse(rest).value;
    }
  }

  /** The witness script, its parts nested to the right. */
  lemma WitnessLayout(w: Btc, tag: Option<Bytes>)
    requires CompressedKeys(w) && |TagBytesOf(tag)| <= 255
    ensures WitnessScript(w, tag)
         == [0x63] + (PushData(w.primaryKey)
            + ((if tag == Some([]) then [0xac] else [0xad] + PushData(TagBytesOf(tag)))
               + ([0x67] + (PushCsvBlocks(w.mainnet) + [0xb2, 0x75] + PushData(w.backupKey) + [0xac, 0x68]))))
  {
    hide PushData, PushCsvBlocks;
  }

  lemma OpsLayout(w: Btc, tag: Option<Bytes>)
    ensures [Code(OP_IF)] + ([Push(w.primaryKey)]
            + (TagOps(tag) + ([Code(OP_ELSE)] + (BackupOps(w) + [Code(OP_ENDIF)]))))
         == WitnessOps(w, tag)
  {
    hide TagOps, BackupOps;
  }

  /** The witness script reads back as the operations it was meant to hold. */
  lemma WitnessParses(w: Btc, tag: Option<Bytes>)
    requires CompressedKeys(w) && |TagBytesOf(tag)| <= 255
    ensures Parse(WitnessScript(w, tag)) == Some(WitnessOps(w, tag))
  {
    assert Pushed(w.primaryKey) == w.primaryKey;
    WitnessLayout(w, tag);
    OpsLayout(w, tag);
    hide Parse, PushData, PushCsvBlocks, WitnessScript, WitnessOps, TagOps, BackupOps, Pushed;
    var backup := ParseBackup(w);
    ParseCode(0x67, backup);
    var a := [0x67] + backup;
    var b := ParseTag(tag, a);
    ParsePush(w.primaryKey, b);
    ParseCode(0x63, PushData(w.primaryKey) + b);
  }

  // ---------------------------------------------------------------- running it

  lemma {:induction false} RunConcat(a: seq<Op>, b: seq<Op>, m: Machine, s: Spender)
    ensures RunOps(a + b, m, s)
         == if RunOps(a, m, s).None? then None else RunOps(b, RunOps(a, m, s).value, s)
    decreases |a|
  {
    hide Perform;
    if a == [] {
      assert a + b == b;
    } else {
      assert (a + b)[0] == a[0] && (a + b)[1..] == a[1..] + b;
      var next := Perform(a[0], m, s);
      if next.Some? {
        RunConcat(a[1..], b, next.value, s);
      }
    }
  }

  predicate IsBranch(op: Op) {
    op.Code? && (op.op == OP_IF || op.op == OP_ELSE || op.op == OP_ENDIF)
  }

  /** A branch not taken does nothing. */
  lemma {:induction false} NotTaken(ops: seq<Op>, m: Machine, s: Spender)
    requires false in m.conditions && forall i :: 0 <= i < |ops| ==> !IsBranch(ops[i])
    ensures RunOps(ops, m, s) == Some(m)
    decreases |ops|
  {
    if ops != [] {
      assert !IsBranch(ops[0]) && Perform(ops[0], m, s) == Some(m);
      NotTaken(ops[1..], m, s);
    }
  }

  lemma RunOne(op: Op, m: Machine, s: Spender)
    ensures RunOps([op], m, s) == Perform(op, m, s)
  {
    hide Perform;
    assert [op][1..] == [];
  }

  lemma RunTwo(a: Op, b: Op, m: Machine, s: Spender)
    ensures RunOps([a, b], m, s)
         == if Perform(a, m, s).None? then None else Perform(b, Perform(a, m, s).value, s)
  {
    hide Perform, RunOps;
    assert [a, b] == [a] + [b];
    RunConcat([a], [b], m, s);
    RunOne(a, m, s);
    if Perform(a, m, s).Some? {
      RunOne(b, Perform(a, m, s).value, s);
    }
  }

  /** The primary path: a signature of the primary key on top is taken; what is left on it is the tag, or
      for an empty tag the outcome of the check. */
  lemma RunPrimary(w: Btc, tag: Option<Bytes>, below: seq<Bytes>, s: Spender)
    ensures var r := RunOps(PrimaryOps(w, tag), Machine(below, [true]), s);
      var n := |below|;
      if n == 0 then r == None
      else if tag == Some([]) then
        r == Some(Machine(below[..n - 1] + [if s.signs(below[n - 1], w.primaryKey) then [1] else []], [true]))
      else if !s.signs(below[n - 1], w.primaryKey) then r == None
      else r == Some(Machine(below[..n - 1] + [Pushed(TagBytesOf(tag))], [true]))
  {
    hide RunOps;
    var start := Machine(below, [true]);
    var keyed := Machine(below + [w.primaryKey], [true]);
    RunConcat([Push(w.primaryKey)], TagOps(tag), start, s);
    RunOne(Push(w.primaryKey), start, s);
    assert Perform(Push(w.primaryKey), start, s) == Some(keyed);
    var n := |below|;
    if tag == Some([]) {
      RunOne(Code(OP_CHECKSIG), keyed, s);
      assert n > 0 ==> keyed.stack[..n + 1 - 2] == below[..n - 1];
    } else {
      RunTwo(Code(OP_CHECKSIGVERIFY), Push(Pushed(TagBytesOf(tag))), keyed, s);
      assert n > 0 ==> keyed.stack[..n + 1 - 2] == below[..n - 1];
    }
  }

  /** The backup path: the relative lock first, then a signature of the backup key. */
  lemma RunBackup(w: Btc, below: seq<Bytes>, s: Spender)
    ensures var r := RunOps(BackupOps(w), Machine(below, [true]), s);
      var n := |below|;
      if s.sequence < Delay(w) || n == 0 then r == None
      else r == Some(Machine(below[..n - 1] + [if s.signs(below[n - 1], w.backupKey) then [1] else []], [true]))
  {
    DelayPushed(w);
    hide RunOps, Number, DelayPush, Delay, Truthy;
    var start := Machine(below, [true]);
    var delayed := Machine(below + [DelayPush(w)], [true]);
    var keyed := Machine(below + [w.backupKey], [true]);
    var lock := [Push(DelayPush(w)), Code(OP_CHECKSEQUENCEVERIFY)];
    var check := [Push(w.backupKey), Code(OP_CHECKSIG)];
    assert BackupOps(w) == lock + ([Code(OP_DROP)] + check);
    RunConcat(lock, [Code(OP_DROP)] + check, start, s);
    RunTwo(Push(DelayPush(w)), Code(OP_CHECKSEQUENCEVERIFY), start, s);
    assert Perform(Push(DelayPush(w)), start, s) == Some(delayed);
    if s.sequence >= Delay(w) {
      assert Perform(Code(OP_CHECKSEQUENCEVERIFY), delayed, s) == Some(delayed);
      RunConcat([Code(OP_DROP)], check, delayed, s);
      RunOne(Code(OP_DROP), delayed, s);
      assert delayed.stack[..|below|] == below;
      assert Perform(Code(OP_DROP), delayed, s) == Some(start);
      RunTwo(Push(w.backupKey), Code(OP_CHECKSIG), start, s);
      assert Perform(Push(w.backupKey), start, s) == Some(keyed);
      assert |below| > 0 ==> keyed.stack[..|below| + 1 - 2] == below[..|below| - 1];
    }
  }
  lemma RunIf(below: seq<Bytes>, selector: Bytes, s: Spender)
    ensures Perform(Code(OP_IF), Machine(below + [selector], []), s) == Some(Machine(below, [Truthy(selector)]))
  {
    hide Truthy;
    var start := Machine(below + [selector], []);
    assert start.stack[..|below|] == below && start.stack[|below|] == selector;
    assert false !in start.conditions && start.conditions + [Truthy(selector)] == [Truthy(selector)];
  }

  lemma RunElse(stack: seq<Bytes>, taken: bool, s: Spender)
    ensures Perform(Code(OP_ELSE), Machine(stack, [taken]), s) == Some(Machine(stack, [!taken]))
  {
    var m := Machine(stack, [taken]);
    assert m.conditions[..0] + [!m.conditions[0]] == [!taken];
  }

  lemma RunEndIf(stack: seq<Bytes>, taken: bool, s: Spender)
    ensures Perform(Code(OP_ENDIF), Machine(stack, [taken]), s) == Some(Machine(stack, []))
  {
    assert [taken][..0] == [];
  }

  function IfElse(a: seq<Op>, b: seq<Op>): seq<Op> {
    [Code(OP_IF)] + (a + ([Code(OP_ELSE)] + (b + [Code(OP_ENDIF)])))
  }

  /** What the branch that runs leaves, with its condition closed. */
  function Closed(r: Option<Machine>): Option<Machine> {
    if r.None? then None else Some(Machine(r.value.stack, []))
  }

  lemma {:induction false} RunFirstBranch(a: seq<Op>, b: seq<Op>, below: seq<Bytes>, selector: Bytes, s: Spender)
    requires Truthy(selector) && forall i :: 0 <= i < |b| ==> !IsBranch(b[i])
    requires var r := RunOps(a, Machine(below, [true]), s); r.Some? ==> r.value.conditions == [true]
    ensures RunOps(IfElse(a, b), Machine(below + [selector], []), s) == Closed(RunOps(a, Machine(below, [true]), s))
  {
    hide Truthy, RunOps, Perform;
    var start, taken := Machine(below + [selector], []), Machine(below, [true]);
    var tail := [Code(OP_ELSE)] + (b + [Code(OP_ENDIF)]);
    RunConcat([Code(OP_IF)], a + tail, start, s);
    RunOne(Code(OP_IF), start, s);
    RunIf(below, selector, s);
    RunConcat(a, tail, taken, s);
    var r := RunOps(a, taken, s);
    if r.Some? {
      var skipped := Machine(r.value.stack, [false]);
      RunConcat([Code(OP_ELSE)], b + [Code(OP_ENDIF)], r.value, s);
      RunOne(Code(OP_ELSE), r.value, s);
      RunElse(r.value.stack, true, s);
      assert r.value == Machine(r.value.stack, [true]);
      RunConcat(b, [Code(OP_ENDIF)], skipped, s);
      NotTaken(b, skipped, s);
      RunOne(Code(OP_ENDIF), skipped, s);
      RunEndIf(r.value.stack, false, s);
    }
  }

  lemma {:induction false} RunSecondBranch(a: seq<Op>, b: seq<Op>, below: seq<Bytes>, selector: Bytes, s: Spender)
    requires !Truthy(selector) && forall i :: 0 <= i < |a| ==> !IsBranch(a[i])
    requires var r := RunOps(b, Machine(below, [true]), s); r.Some? ==> r.value.conditions == [true]
    ensures RunOps(IfElse(a, b), Machine(below + [selector], []), s) == Closed(RunOps(b, Machine(below, [true]), s))
  {
    hide Truthy, RunOps, Perform;
    var start, skipped, taken := Machine(below + [selector], []), Machine(below, [false]), Machine(below, [true]);
    var tail := [Code(OP_ELSE)] + (b + [Code(OP_ENDIF)]);
    RunConcat([Code(OP_IF)], a + tail, start, s);
    RunOne(Code(OP_IF), start, s);
    RunIf(below, selector, s);
    RunConcat(a, tail, skipped, s);
    NotTaken(a, skipped, s);
    RunConcat([Code(OP_ELSE)], b + [Code(OP_ENDIF)], skipped, s);
    RunOne(Code(OP_ELSE), skipped, s);
    RunElse(below, false, s);
    RunConcat(b, [Code(OP_ENDIF)], taken, s);
    var r := RunOps(b, taken, s);
    if r.Some? {
      RunOne(Code(OP_ENDIF), r.value, s);
      RunEndIf(r.value.stack, true, s);
      assert r.value == Machine(r.value.stack, [true]);
    }
  }

  lemma WitnessBranches(w: Btc, tag: Option<Bytes>)
    ensures WitnessOps(w, tag) == IfElse(PrimaryOps(w, tag), BackupOps(w))
    ensures forall i :: 0 <= i < |PrimaryOps(w, tag)| ==> !IsBranch(PrimaryOps(w, tag)[i])
    ensures forall i :: 0 <= i < |BackupOps(w)| ==> !IsBranch(BackupOps(w)[i])
  {
    hide DelayPush, TagOps;
    var a, b := PrimaryOps(w, tag), BackupOps(w);
    assert [Code(OP_IF)] + a + [Code(OP_ELSE)] + b + [Code(OP_ENDIF)]
        == [Code(OP_IF)] + (a + ([Code(OP_ELSE)] + (b + [Code(OP_ENDIF)])));
    PrimaryFlat(w, tag);
  }

  lemma PrimaryFlat(w: Btc, tag: Option<Bytes>)
    ensures forall i :: 0 <= i < |PrimaryOps(w, tag)| ==> !IsBranch(PrimaryOps(w, tag)[i])
  {
  }

  lemma TruthyPushed(x: Bytes)
    ensures Truthy(Pushed(x)) <==> Truthy(x)
    ensures Truthy([1]) && !Truthy([])
  {
    var one: Bytes := [1];
    assert one[0] != 0;
  }

  /** What the tag leaves for the primary path to succeed on: nothing more than the signature for an empty
      tag, its own truth for any other, and never for none. */
  predicate TagPasses(tag: Option<Bytes>) {
    tag.Some? && (tag.value == [] || Truthy(tag.value))
  }

  /** The immediate branch of a witness script accepts exactly one signature, of the primary key, for a
      passing tag: whatever the spender's relative lock, and never a signature of any other key. */
  lemma PrimaryPathExact(w: Btc, tag: Option<Bytes>, below: seq<Bytes>, selector: Bytes, s: Spender)
    requires CompressedKeys(w) && |TagBytesOf(tag)| <= 255 && Truthy(selector)
    ensures Accepts(WitnessScript(w, tag), below + [selector], s)
       <==> |below| == 1 && s.signs(below[0], w.primaryKey) && TagPasses(tag)
  {
    WitnessParses(w, tag);
    WitnessBranches(w, tag);
    RunPrimary(w, tag, below, s);
    hide Parse, WitnessScript, RunOps, PrimaryOps, BackupOps, WitnessOps, IfElse, Truthy;
    TruthyPushed(TagBytesOf(tag));
    RunFirstBranch(PrimaryOps(w, tag), BackupOps(w), below, selector, s);
  }

  /** The delayed branch accepts exactly one signature, of the backup key, once the input's relative lock
      has reached 4320 blocks (2 off the main network), whatever the tag. */
  lemma BackupPathExact(w: Btc, tag: Option<Bytes>, below: seq<Bytes>, selector: Bytes, s: Spender)
    requires CompressedKeys(w) && |TagBytesOf(tag)| <= 255 && !Truthy(selector)
    ensures Accepts(WitnessScript(w, tag), below + [selector], s)
       <==> |below| == 1 && s.signs(below[0], w.backupKey) && s.sequence >= if w.mainnet then 4320 else 2
  {
    WitnessParses(w, tag);
    WitnessBranches(w, tag);
    RunBackup(w, below, s);
    hide Parse, WitnessScript, RunOps, PrimaryOps, BackupOps, WitnessOps, IfElse, Truthy;
    TruthyPushed([]);
    RunSecondBranch(PrimaryOps(w, tag), BackupOps(w), below, selector, s);
  }

  /** Without a selector no branch is chosen and nothing is accepted. */
  lemma EmptyStackRejected(w: Btc, tag: Option<Bytes>, s: Spender)
    requires CompressedKeys(w) && |TagBytesOf(tag)| <= 255
    ensures !Accepts(WitnessScript(w, tag), [], s)
  {
    WitnessParses(w, tag);
    hide Parse, WitnessScript;
    var ops := WitnessOps(w, tag);
    assert ops[0] == Code(OP_IF) && Perform(ops[0], Machine([], []), s) == None;
  }

  // ---------------------------------------------------------------- scripts and tags

  /** Scripts of one world agree exactly for equal tags, but for the tag that is the single byte 0: the
      number zero and nothing at all are pushed alike. */
  lemma SameScriptExact(w: Btc, a: Option<Bytes>, b: Option<Bytes>)
    requires CompressedKeys(w) && |TagBytesOf(a)| <= 255 && |TagBytesOf(b)| <= 255
    ensures WitnessScript(w, a) == WitnessScript(w, b)
       <==> a == b || (a in {None, Some([0])} && b in {None, Some([0])})
  {
    if WitnessScript(w, a) == WitnessScript(w, b) {
      WitnessParses(w, a);
      WitnessParses(w, b);
      hide Parse, WitnessScript, BackupOps;
      SameOps(w, a, b);
    }
  }

  lemma SameOps(w: Btc, a: Option<Bytes>, b: Option<Bytes>)
    requires WitnessOps(w, a) == WitnessOps(w, b)
    ensures a == b || (a in {None, Some([0])} && b in {None, Some([0])})
  {
    hide BackupOps;
    var x, y := WitnessOps(w, a), WitnessOps(w, b);
    assert x[2] == TagOps(a)[0] && y[2] == TagOps(b)[0];
    if a != Some([]) && b != Some([]) {
      assert x[3] == TagOps(a)[1] && y[3] == TagOps(b)[1];
      assert Pushed(TagBytesOf(a)) == Pushed(TagBytesOf(b));
    }
  }

  /** The script a spend is signed with is the one its coin was paid to exactly when the coin's address
      carries a tag: a deposit's script is rebuilt as it was, a change coin, which is paid to the nil-tag
      address and read back with an empty tag, gets another script. */
  lemma RebuiltScriptExact(w: Btc, u: Utxo)
    requires CompressedKeys(w) && |TagBytesOf(u.tag)| <= 255
    ensures WitnessScript(w, u.Stored().tag) == WitnessScript(w, u.tag) <==> u.tag.Some?
  {
    SameScriptExact(w, u.Stored().tag, u.tag);
  }

  /** A change coin's own address has no immediate path at all: with the IF branch its script accepts
      nothing, so only the backup key can ever spend it. */
  lemma ChangeScriptIsBackupOnly(w: Btc, stack: seq<Bytes>, s: Spender)
    requires CompressedKeys(w)
    ensures Accepts(WitnessScript(w, None), stack, s)
       <==> && |stack| == 2 && !Truthy(stack[1])
            && s.signs(stack[0], w.backupKey) && s.sequence >= if w.mainnet then 4320 else 2
  {
    if stack == [] {
      EmptyStackRejected(w, None, s);
    } else {
      var below, selector := stack[..|stack| - 1], stack[|stack| - 1];
      assert stack == below + [selector];
      hide Accepts, WitnessScript, Truthy;
      if Truthy(selector) {
        PrimaryPathExact(w, None, below, selector, s);
      } else {
        BackupPathExact(w, None, below, selector, s);
      }
    }
  }
}
