// The header chain (blocklist.go) and the addBlocks and seedBlocks actions (main.go).

module Blocklist {
  import opened Wrappers
  import opened Int64
  import opened Bytes
  import opened Text
  import opened World
  import opened State

  const HEADER_SIZE: nat := 80
  const MAX_UINT32: nat := 0xFFFF_FFFF

  type Headers = map<Uint32, Bytes>

  type RawHeader = b: Bytes | |b| == HEADER_SIZE witness seq(80, i => 0)

  // ---------------------------------------------------------------- parsing

  function HeadersOfHex(blocksHex: string): (r: Result<seq<RawHeader>>)
  {
    var decoded := DecodeHex(blocksHex);
    if decoded.None? then Err(ErrInvalidHex)
    else if |decoded.value| % HEADER_SIZE != 0 then Err(ErrInput)
    else Ok(seq(|decoded.value| / HEADER_SIZE, i requires 0 <= i < |decoded.value| / HEADER_SIZE =>
      decoded.value[HEADER_SIZE * i..HEADER_SIZE * i + HEADER_SIZE]))
  }

  method DivideHeaderList(blocksHex: string) returns (r: Result<seq<RawHeader>>)
    ensures r == HeadersOfHex(blocksHex)
  {
    var decoded := DecodeHex(blocksHex);
    if decoded.None? {
      return Err(ErrInvalidHex);
    }
    var blockBytes := decoded.value;
    if |blockBytes| % HEADER_SIZE != 0 {
      return Err(ErrInput);
    }
    var blockHeaders := new RawHeader[|blockBytes| / HEADER_SIZE](i => seq(80, j => 0));
    var i := 0;
    while i < |blockBytes|
      invariant 0 <= i <= |blockBytes| && i % HEADER_SIZE == 0
      invariant forall j :: 0 <= j < i / HEADER_SIZE ==>
        blockHeaders[j] == blockBytes[HEADER_SIZE * j..HEADER_SIZE * j + HEADER_SIZE]
    {
      blockHeaders[i / HEADER_SIZE] := blockBytes[i..i + HEADER_SIZE];
      i := i + HEADER_SIZE;
    }
    assert blockHeaders[..] == HeadersOfHex(blocksHex).value;
    r := Ok(blockHeaders[..]);
  }

  function Concatenated(raws: seq<RawHeader>): (bs: Bytes)
    ensures |bs| == HEADER_SIZE * |raws|
  {
    if raws == [] then [] else Concatenated(raws[..|raws| - 1]) + raws[|raws| - 1]
  }

  lemma {:induction false} ConcatenatedAt(raws: seq<RawHeader>, i: nat)
    requires i < |raws|
    ensures Concatenated(raws)[HEADER_SIZE * i..HEADER_SIZE * i + HEADER_SIZE] == raws[i]
  {
    var front := raws[..|raws| - 1];
    if i < |raws| - 1 {
      ConcatenatedAt(front, i);
      assert Concatenated(raws)[HEADER_SIZE * i..HEADER_SIZE * i + HEADER_SIZE]
        == Concatenated(front)[HEADER_SIZE * i..HEADER_SIZE * i + HEADER_SIZE];
    }
  }

  /** The hex of headers one after the other is read back as those headers, in order. */
  lemma HeadersRoundTrip(raws: seq<RawHeader>)
    ensures HeadersOfHex(EncodeHex(Concatenated(raws))) == Ok(raws)
  {
    hide EncodeHex, DecodeHex, Concatenated;
    DecodeEncodedHex(Concatenated(raws));
    forall i | 0 <= i < |raws| ensures Concatenated(raws)[HEADER_SIZE * i..HEADER_SIZE * i + HEADER_SIZE] == raws[i] {
      ConcatenatedAt(raws, i);
    }
    assert HeadersOfHex(EncodeHex(Concatenated(raws))).value == raws;
  }

  // ---------------------------------------------------------------- appending

  /** The previous-block field of a header. */
  function PrevBlock(raw: Bytes): Hash
    requires |raw| >= HEADER_SIZE
  {
    raw[4..36]
  }

  /** Hash of the header that decodes from stored bytes; trailing bytes are not read. */
  function BlockHash(w: Btc, raw: Bytes): Hash
    requires |raw| >= HEADER_SIZE
  {
    w.doubleHash(raw[..HEADER_SIZE])
  }

  /** Where an appending loop stopped: what it stored, the height it reached, and its error. */
  datatype Extension = Extension(headers: Headers, height: Uint32, failure: Option<Error>)

  function Extend(w: Btc, headers: Headers, height: Uint32, tip: Bytes, raws: seq<RawHeader>): (e: Extension)
    requires |tip| >= HEADER_SIZE
    decreases |raws|
  {
    if raws == [] then Extension(headers, height, None)
    else if height == MAX_UINT32 then Extension(headers, height, Some(ErrArithmetic))
    else if !w.passesPoW(raws[0]) then Extension(headers, height, Some(ErrInput))
    else if PrevBlock(raws[0]) != BlockHash(w, tip) then Extension(headers, height, Some(ErrSequence))
    else Extend(w, headers[height + 1 := raws[0]], height + 1, raws[0], raws[1..])
  }

  /** HandleAddBlocks: the headers it wrote, then last height and count, both 0 with an error. */
  datatype AddResult = AddResult(headers: Headers, lastHeight: Uint32, added: Uint32, failure: Option<Error>)

  function HandleAddBlocks(w: Btc, headers: Headers, lastHeight: Option<Uint32>, raws: seq<RawHeader>): (r: AddResult)
  {
    if lastHeight.None? then AddResult(headers, 0, 0, Some(ErrStateAccess))
    else if lastHeight.value !in headers || |headers[lastHeight.value]| < HEADER_SIZE
    then AddResult(headers, 0, 0, Some(ErrInput))
    else
      var e := Extend(w, headers, lastHeight.value, headers[lastHeight.value], raws);
      if e.failure.Some? then AddResult(e.headers, 0, 0, e.failure)
      else AddResult(e.headers, e.height, (e.height - lastHeight.value) % 0x1_0000_0000, None)
  }

  /** The addBlocks action. A sequence error does not abort the call: what was written stays, and
      the height 0 that came with the error is stored. */
  function AddBlocks(w: Btc, s: State, blocksHex: string, latestFee: Int64): (r: Result<State>)
  {
    var raws := HeadersOfHex(blocksHex);
    if raws.Err? then Err(ErrInput) else
    var r := HandleAddBlocks(w, s.headers, s.lastHeight, raws.value);
    if r.failure.Some? && r.failure.value != ErrSequence then Err(r.failure.value)
    else Ok(s.(headers := r.headers, lastHeight := Some(r.lastHeight),
               supply := s.supply.(baseFeeRate := latestFee)))
  }

  /** The seedBlocks action; reseeding is for test networks. */
  function SeedBlocks(s: State, headerHex: string, height: Uint32, allowReseed: bool): (r: Result<State>)
  {
    if s.lastHeight.Some? && !allowReseed then Err(ErrInitialization)
    else if s.lastHeight.Some? && s.lastHeight.value != 0 && s.lastHeight.value >= height then Err(ErrInput)
    else
      var raw := DecodeHex(headerHex);
      if raw.None? then Err(ErrInvalidHex)
      else Ok(s.(headers := s.headers[height := raw.value], lastHeight := Some(height)))
  }

  /** The registerRouter action: write-once but on test networks. */
  function RegisterRouter(s: State, id: Bytes, testnet: bool): State {
    if id != [] && (s.router == [] || testnet) then s.(router := id) else s
  }

  /** A router id is set when there is none, replaced on test networks only, and never by an empty one. */
  lemma RegisterRouterExact(s: State, id: Bytes, testnet: bool)
    ensures var s' := RegisterRouter(s, id, testnet);
      && s' == s.(router := s'.router)
      && (s.router == [] || (testnet && id != []) ==> s'.router == id)
      && (s.router != [] && (!testnet || id == []) ==> s'.router == s.router)
  {
  }

  // ---------------------------------------------------------------- the chain

  /** b's previous-block field is a's hash. */
  ghost predicate Linked(w: Btc, a: Bytes, b: Bytes) {
    |a| >= HEADER_SIZE && |b| >= HEADER_SIZE && PrevBlock(b) == BlockHash(w, a)
  }

  /** Exactly the heights from seed to last are stored, each header linked to the one below. */
  ghost predicate ChainBetween(w: Btc, headers: Headers, seed: Uint32, last: Uint32) {
    && seed <= last
    && (forall h: Uint32 :: h in headers <==> seed <= h <= last)
    && forall h: Uint32 :: seed < h <= last ==> Linked(w, headers[(h - 1) as Uint32], headers[h])
  }

  ghost predicate Chain(w: Btc, s: State, seed: Uint32) {
    s.lastHeight.Some? && ChainBetween(w, s.headers, seed, s.lastHeight.value)
  }

  lemma ChainGrows(w: Btc, headers: Headers, seed: Uint32, last: Uint32, raw: RawHeader)
    requires ChainBetween(w, headers, seed, last) && last < MAX_UINT32 && Linked(w, headers[last], raw)
    ensures (last + 1) as Uint32 !in headers
    ensures ChainBetween(w, headers[(last + 1) as Uint32 := raw], seed, last + 1)
  {
    hide Linked;
  }

  /** Every header the loop wrote extends the chain, whatever stopped it; what was stored before is
      kept; the height counts the headers written and never wraps. */
  lemma {:induction false} ExtendEffect(w: Btc, headers: Headers, height: Uint32, raws: seq<RawHeader>, seed: Uint32)
    requires ChainBetween(w, headers, seed, height) && |headers[height]| >= HEADER_SIZE
    ensures var e := Extend(w, headers, height, headers[height], raws);
      && ChainBetween(w, e.headers, seed, e.height)
      && (forall h :: h in headers ==> h in e.headers && e.headers[h] == headers[h])
      && height <= e.height && e.height - height <= |raws|
      && (e.failure.None? <==> e.height - height == |raws|)
      && (forall i :: 0 <= i < e.height - height ==> e.headers[(height + 1 + i) as Uint32] == raws[i])
    decreases |raws|
  {
    if raws != [] && height != MAX_UINT32 && w.passesPoW(raws[0])
       && PrevBlock(raws[0]) == BlockHash(w, headers[height]) {
      var next: Uint32 := height + 1;
      var headers' := headers[next := raws[0]];
      ChainGrows(w, headers, seed, height, raws[0]);
      hide ChainBetween, PrevBlock, BlockHash;
      ExtendEffect(w, headers', next, raws[1..], seed);
      var e := Extend(w, headers, height, headers[height], raws);
      forall i | 0 <= i < e.height - height ensures e.headers[(height + 1 + i) as Uint32] == raws[i] {
        if i > 0 {
          assert e.headers[(next + 1 + (i - 1)) as Uint32] == raws[1..][i - 1];
        }
      }
    }
  }

  // ---------------------------------------------------------------- what is stored, and why it stopped

  /** The header that the k-th of these must name. */
  function TipBefore(tip: Bytes, raws: seq<RawHeader>, k: nat): Bytes
    requires k <= |raws|
  {
    if k == 0 then tip else raws[k - 1]
  }

  /** The k-th header is in range, passes the work check and names the one before it. */
  predicate Acceptable(w: Btc, height: Uint32, tip: Bytes, raws: seq<RawHeader>, k: nat)
    requires |tip| >= HEADER_SIZE && k < |raws|
  {
    height + k < MAX_UINT32 && w.passesPoW(raws[k]) && PrevBlock(raws[k]) == BlockHash(w, TipBefore(tip, raws, k))
  }

  /** From `headers` to headers' exactly the first k of raws were written, above `height`; each is
      acceptable, and the next one, if any, is not. */
  ghost predicate Written(w: Btc, headers: Headers, height: Uint32, tip: Bytes, raws: seq<RawHeader>, k: nat,
                          headers': Headers)
    requires |tip| >= HEADER_SIZE
  {
    && k <= |raws|
    && (forall i :: 0 <= i < k ==> Acceptable(w, height, tip, raws, i))
    && (k < |raws| ==> !Acceptable(w, height, tip, raws, k))
    && (forall h: Uint32 :: h in headers' <==> h in headers || height < h <= height + k)
    && forall h: Uint32 :: h in headers' ==>
         headers'[h] == if height < h <= height + k then raws[h - height - 1] else headers[h]
  }

  /** Nothing is written before the first header is acceptable, and everything after it goes on from there. */
  lemma WrittenStep(w: Btc, headers: Headers, height: Uint32, tip: Bytes, raws: seq<RawHeader>, k: nat,
                    headers': Headers)
    requires |tip| >= HEADER_SIZE && raws != [] && Acceptable(w, height, tip, raws, 0)
    requires Written(w, headers[(height + 1) as Uint32 := raws[0]], height + 1, raws[0], raws[1..], k, headers')
    ensures Written(w, headers, height, tip, raws, k + 1, headers')
    ensures StopReason(w, height, tip, raws, k + 1) == StopReason(w, height + 1, raws[0], raws[1..], k)
  {
    hide PrevBlock, BlockHash;
    forall i | 0 <= i < k + 1 ensures Acceptable(w, height, tip, raws, i) {
      if i > 0 {
        assert Acceptable(w, height + 1, raws[0], raws[1..], i - 1);
      }
    }
  }

  lemma NothingWritten(w: Btc, headers: Headers, height: Uint32, tip: Bytes, raws: seq<RawHeader>)
    requires |tip| >= HEADER_SIZE && (raws == [] || !Acceptable(w, height, tip, raws, 0))
    ensures Written(w, headers, height, tip, raws, 0, headers)
    ensures Extend(w, headers, height, tip, raws) == Extension(headers, height, StopReason(w, height, tip, raws, 0))
  {
    hide PrevBlock, BlockHash;
  }

  lemma {:induction false} ExtendExact(w: Btc, headers: Headers, height: Uint32, tip: Bytes, raws: seq<RawHeader>)
    returns (k: nat)
    requires |tip| >= HEADER_SIZE
    ensures var e := Extend(w, headers, height, tip, raws);
      && Written(w, headers, height, tip, raws, k, e.headers) && e.height == height + k
      && e.failure == StopReason(w, height, tip, raws, k)
    decreases |raws|
  {
    hide PrevBlock, BlockHash, Written, StopReason;
    if raws != [] && Acceptable(w, height, tip, raws, 0) {
      var k1 := ExtendExact(w, headers[(height + 1) as Uint32 := raws[0]], height + 1, raws[0], raws[1..]);
      k := k1 + 1;
      WrittenStep(w, headers, height, tip, raws, k1, Extend(w, headers, height, tip, raws).headers);
    } else {
      k := 0;
      NothingWritten(w, headers, height, tip, raws);
    }
  }

  /** Why a loop stops before the k-th header: end of input, end of the height range, no work, no link -
      looked at in this order. */
  function StopReason(w: Btc, height: Uint32, tip: Bytes, raws: seq<RawHeader>, k: nat): Option<Error>
    requires k <= |raws|
  {
    if k == |raws| then None
    else if height + k >= MAX_UINT32 then Some(ErrArithmetic)
    else if !w.passesPoW(raws[k]) then Some(ErrInput)
    else Some(ErrSequence)
  }

  /** Every header that s' stores and s does not, at that height, passed the work check. */
  ghost predicate NewHeadersPass(w: Btc, headers: Headers, headers': Headers) {
    forall h: Uint32 :: h in headers' ==>
      (h in headers && headers'[h] == headers[h]) || w.passesPoW(headers'[h])
  }

  /** Whatever stopped the loop, what it stored passed the work check. */
  lemma ExtendPasses(w: Btc, headers: Headers, height: Uint32, tip: Bytes, raws: seq<RawHeader>)
    requires |tip| >= HEADER_SIZE
    ensures NewHeadersPass(w, headers, Extend(w, headers, height, tip, raws).headers)
  {
    var k := ExtendExact(w, headers, height, tip, raws);
    hide Extend, PrevBlock, BlockHash;
    var e := Extend(w, headers, height, tip, raws);
    forall h: Uint32 | h in e.headers
      ensures (h in headers && e.headers[h] == headers[h]) || w.passesPoW(e.headers[h])
    {
      if height < h <= height + k {
        assert Acceptable(w, height, tip, raws, h - height - 1);
      }
    }
  }

  /** What an accepted addBlocks call writes: the longest run of headers sent that are in range, pass the
      work check and link up from the stored tip, at the heights above it; all of them unless the first
      one left out fails to link. */
  lemma AddBlocksExact(w: Btc, s: State, blocksHex: string, latestFee: Int64, s': State, raws: seq<RawHeader>,
                       last: Uint32)
    returns (k: nat)
    requires AddBlocks(w, s, blocksHex, latestFee) == Ok(s')
    requires HeadersOfHex(blocksHex) == Ok(raws) && s.lastHeight == Some(last)
    ensures last in s.headers && |s.headers[last]| >= HEADER_SIZE
    ensures Written(w, s.headers, last, s.headers[last], raws, k, s'.headers)
    ensures NewHeadersPass(w, s.headers, s'.headers)
    ensures s'.lastHeight.Some? && s'.lastHeight.value == if k == |raws| then last + k else 0
    ensures k < |raws| ==> last + k < MAX_UINT32 && w.passesPoW(raws[k])
  {
    hide HeadersOfHex, Extend, PrevBlock, BlockHash, NewHeadersPass, Acceptable;
    k := ExtendExact(w, s.headers, last, s.headers[last], raws);
    ExtendPasses(w, s.headers, last, s.headers[last], raws);
  }

  /** On success the loop reports the new height and how many headers it added. */
  lemma AddedExact(w: Btc, headers: Headers, last: Uint32, raws: seq<RawHeader>)
    requires HandleAddBlocks(w, headers, Some(last), raws).failure == None
    ensures var r := HandleAddBlocks(w, headers, Some(last), raws);
      r.lastHeight == last + |raws| && r.added == |raws|
  {
    hide Extend, PrevBlock, BlockHash, Written, Acceptable;
    var k := ExtendExact(w, headers, last, headers[last], raws);
    WrittenWithin(w, headers, last, headers[last], raws, k, Extend(w, headers, last, headers[last], raws).headers);
  }

  lemma WrittenWithin(w: Btc, headers: Headers, height: Uint32, tip: Bytes, raws: seq<RawHeader>, k: nat,
                      headers': Headers)
    requires |tip| >= HEADER_SIZE && Written(w, headers, height, tip, raws, k, headers')
    ensures k <= |raws| && height + k <= MAX_UINT32
    ensures StopReason(w, height, tip, raws, k) == None ==> k == |raws|
  {
    hide PrevBlock, BlockHash;
    if k > 0 {
      assert Acceptable(w, height, tip, raws, k - 1);
    }
  }

  /** When an addBlocks call is accepted: it is sent whole headers in hex, there is a readable tip, and the
      first header that is not stored, if any, is in range and passes the work check - it only fails to link. */
  lemma AddBlocksAccepted(w: Btc, s: State, blocksHex: string, latestFee: Int64) returns (k: nat)
    ensures HeadersOfHex(blocksHex).Err? ==> AddBlocks(w, s, blocksHex, latestFee) == Err(ErrInput)
    ensures HeadersOfHex(blocksHex).Ok? && s.lastHeight == None ==>
      AddBlocks(w, s, blocksHex, latestFee) == Err(ErrStateAccess)
    ensures HeadersOfHex(blocksHex).Ok? && s.lastHeight.Some? ==>
      var last, raws := s.lastHeight.value, HeadersOfHex(blocksHex).value;
      if last !in s.headers || |s.headers[last]| < HEADER_SIZE
      then AddBlocks(w, s, blocksHex, latestFee) == Err(ErrInput)
      else
        var e := Extend(w, s.headers, last, s.headers[last], raws);
        && Written(w, s.headers, last, s.headers[last], raws, k, e.headers)
        && (AddBlocks(w, s, blocksHex, latestFee).Ok?
            <==> k == |raws| || (last + k < MAX_UINT32 && w.passesPoW(raws[k])))
  {
    hide HeadersOfHex, Extend, PrevBlock, BlockHash, Acceptable;
    k := 0;
    if HeadersOfHex(blocksHex).Ok? && s.lastHeight.Some? {
      var last := s.lastHeight.value;
      if last in s.headers && |s.headers[last]| >= HEADER_SIZE {
        k := ExtendExact(w, s.headers, last, s.headers[last], HeadersOfHex(blocksHex).value);
      }
    }
  }

  /** When a seed is accepted: the first one always, a later one on test networks only and only upwards
      (or after a reset to height 0), provided it is hex. It replaces one header and the height. */
  lemma SeedExact(s: State, headerHex: string, height: Uint32, allowReseed: bool)
    ensures var r := SeedBlocks(s, headerHex, height, allowReseed);
      && (r.Ok? <==>
           && DecodeHex(headerHex).Some?
           && (s.lastHeight == None
               || (allowReseed && (s.lastHeight == Some(0) || s.lastHeight.value < height))))
      && (r.Ok? ==>
           && height in r.value.headers && Some(r.value.headers[height]) == DecodeHex(headerHex)
           && (forall h: Uint32 :: h != height ==>
                (h in r.value.headers <==> h in s.headers)
                && (h in s.headers ==> r.value.headers[h] == s.headers[h]))
           && r.value == s.(headers := r.value.headers, lastHeight := Some(height)))
  {
    hide DecodeHex;
  }

  /** A fresh seed is a chain of one header. */
  lemma SeedStartsChain(w: Btc, s: State, headerHex: string, height: Uint32, allowReseed: bool, s': State)
    requires s.headers == map[] && s.lastHeight == None && SeedBlocks(s, headerHex, height, allowReseed) == Ok(s')
    ensures Chain(w, s', height)
  {
  }

  /** An accepted addBlocks call keeps every stored header, and what it wrote links up to some
      height `reached`. That height is the stored one - so the chain still ends at its tip - exactly
      when the call had no sequence error or reached no height above 0. */
  lemma AddBlocksEffect(w: Btc, s: State, blocksHex: string, latestFee: Int64, s': State, seed: Uint32)
    returns (reached: Uint32)
    requires Chain(w, s, seed) && AddBlocks(w, s, blocksHex, latestFee) == Ok(s')
    ensures HeadersOfHex(blocksHex).Ok?
    ensures forall h :: h in s.headers ==> h in s'.headers && s'.headers[h] == s.headers[h]
    ensures ChainBetween(w, s'.headers, seed, reached) && s.lastHeight.value <= reached
    ensures |s.headers[s.lastHeight.value]| >= HEADER_SIZE
    ensures var raws := HeadersOfHex(blocksHex).value;
      && reached == Extend(w, s.headers, s.lastHeight.value, s.headers[s.lastHeight.value], raws).height
    ensures var raws := HeadersOfHex(blocksHex).value;
      var failure := HandleAddBlocks(w, s.headers, s.lastHeight, raws).failure;
      && (failure.None? ==> s'.lastHeight == Some(reached) && reached - s.lastHeight.value == |raws|)
      && (failure.Some? ==>
        s'.lastHeight == Some(0) && failure.value == ErrSequence && reached - s.lastHeight.value < |raws|)
      && (Chain(w, s', seed) <==> failure.None? || reached == 0)
    ensures s' == s.(headers := s'.headers, lastHeight := s'.lastHeight, supply := s.supply.(baseFeeRate := latestFee))
  {
    hide HeadersOfHex, Linked, Extend;
    var raws := HeadersOfHex(blocksHex).value;
    var last := s.lastHeight.value;
    ExtendEffect(w, s.headers, last, raws, seed);
    reached := Extend(w, s.headers, last, s.headers[last], raws).height;
    if Chain(w, s', seed) {
      OneTip(w, s'.headers, seed, reached, s'.lastHeight.value);
    }
  }

  /** A chain has one last height. */
  lemma OneTip(w: Btc, headers: Headers, seed: Uint32, a: Uint32, b: Uint32)
    requires ChainBetween(w, headers, seed, a) && ChainBetween(w, headers, seed, b)
    ensures a == b
  {
    assert a in headers && b in headers;
  }

  /** Each header names the one before it, the first one the tip. */
  predicate Links(w: Btc, tip: Bytes, raws: seq<RawHeader>)
    requires |tip| >= HEADER_SIZE
    decreases |raws|
  {
    raws == [] || (PrevBlock(raws[0]) == BlockHash(w, tip) && Links(w, raws[0], raws[1..]))
  }

  /** A loop that was not stopped by height or work succeeds exactly on headers that link up; it
      gets nowhere exactly when there are none or the first does not link. */
  lemma {:induction false} ExtendLinks(w: Btc, headers: Headers, height: Uint32, tip: Bytes, raws: seq<RawHeader>)
    requires |tip| >= HEADER_SIZE
    ensures var e := Extend(w, headers, height, tip, raws);
      && (e.failure == None || e.failure == Some(ErrSequence) ==>
           (e.failure == None <==> Links(w, tip, raws))
           && (e.height == height <==> raws == [] || PrevBlock(raws[0]) != BlockHash(w, tip)))
      && height <= e.height
    decreases |raws|
  {
    hide PrevBlock, BlockHash;
    if raws != [] && height != MAX_UINT32 && w.passesPoW(raws[0]) && PrevBlock(raws[0]) == BlockHash(w, tip) {
      ExtendLinks(w, headers[height + 1 := raws[0]], height + 1, raws[0], raws[1..]);
    }
  }

  /** When an accepted addBlocks call leaves the stored height at the tip of the chain: exactly when
      the headers sent link up from the stored tip - or the chain ends at height 0 and the first
      header sent does not link, so that the reset to 0 happens to be right. */
  lemma AddBlocksKeepsChain(w: Btc, s: State, blocksHex: string, latestFee: Int64, s': State, seed: Uint32)
    requires Chain(w, s, seed) && AddBlocks(w, s, blocksHex, latestFee) == Ok(s')
    ensures HeadersOfHex(blocksHex).Ok? && |s.headers[s.lastHeight.value]| >= HEADER_SIZE
    ensures var raws := HeadersOfHex(blocksHex).value;
      var tip := s.headers[s.lastHeight.value];
      Chain(w, s', seed) <==>
        || Links(w, tip, raws)
        || (s.lastHeight.value == 0 && raws != [] && PrevBlock(raws[0]) != BlockHash(w, tip))
  {
    hide HeadersOfHex, Chain, Extend, Links, PrevBlock, BlockHash;
    var raws := HeadersOfHex(blocksHex).value;
    var last := s.lastHeight.value;
    var reached := AddBlocksEffect(w, s, blocksHex, latestFee, s', seed);
    ExtendLinks(w, s.headers, last, s.headers[last], raws);
  }

  /** The stored height does not always name the tip: a single header that does not link resets
      it to 0. Here the hash of the stored tip is not all ones, and every header passes the work
      check. */
  lemma SequenceErrorResetsHeight(w: Btc) returns (s: State, blocksHex: string, s': State)
    requires w.doubleHash(seq(80, i => 0)) != seq(32, i => 1) && forall raw :: w.passesPoW(raw)
    ensures Chain(w, s, 100) && s.lastHeight == Some(100)
    ensures AddBlocks(w, s, blocksHex, 7) == Ok(s') && s'.headers == s.headers
    ensures s'.lastHeight == Some(0) && !Chain(w, s', 100)
  {
    var tip: RawHeader := seq(80, i => 0);
    var stray: RawHeader := seq(80, i => 1);
    s := EmptyState().(headers := map[100 := tip], lastHeight := Some(100));
    blocksHex := EncodeHex(stray);
    DecodeEncodedHex(stray);
    assert stray[80 * 0..80 * 0 + 80] == stray;
    var raws := HeadersOfHex(blocksHex).value;
    assert raws == [stray];
    assert PrevBlock(stray) == seq(32, i => 1);
    assert tip[..80] == tip;
    assert Extend(w, s.headers, 100, tip, raws) == Extension(s.headers, 100, Some(ErrSequence));
    s' := AddBlocks(w, s, blocksHex, 7).value;
  }
}
