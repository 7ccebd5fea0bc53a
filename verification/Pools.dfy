// Ring allocation of UTXO ids (utils.go): the next free slot of a pool, cyclically.

module Pools {
  import opened Wrappers
  import opened Bytes
  import opened Types

  datatype Allocation = Allocation(id: Byte, next: Byte)

  /** The j-th slot a scan from `start` visits in the pool [lo, end). */
  function Slot(lo: nat, end: nat, start: nat, j: nat): (id: nat)
    requires lo <= start < end <= 256 && j < end - lo
    ensures lo <= id < end
  {
    if start + j < end then start + j else start + j - (end - lo)
  }

  function Successor(lo: nat, end: nat, id: nat): (next: nat)
    requires lo <= id < end <= 256
    ensures lo <= next < end
  {
    if id == end - 1 then lo else id + 1
  }

  /** Scan position of the first free slot at or after position j. */
  function FirstFree(lo: nat, end: nat, start: nat, occupied: set<Byte>, j: nat): (k: Option<nat>)
    requires lo <= start < end <= 256 && j <= end - lo
    ensures k.Some? ==> j <= k.value < end - lo
    decreases end - lo - j
  {
    if j == end - lo then None
    else if Slot(lo, end, start, j) !in occupied then Some(j)
    else FirstFree(lo, end, start, occupied, j + 1)
  }

  function Allocate(lo: nat, end: nat, start: nat, occupied: set<Byte>): (r: Result<Allocation>)
    requires lo <= start < end <= 256
    ensures r.Ok? ==> lo <= r.value.id < end && lo <= r.value.next < end
  {
    var k := FirstFree(lo, end, start, occupied, 0);
    if k.None? then Err(ErrStateAccess)
    else
      var id := Slot(lo, end, start, k.value);
      Ok(Allocation(id, Successor(lo, end, id)))
  }

  function AllocateConfirmed(next: nat, occupied: set<Byte>): (r: Result<Allocation>)
    requires UTXO_CONFIRMED_POOL_START <= next < UTXO_POOL_END
  {
    Allocate(UTXO_CONFIRMED_POOL_START, UTXO_POOL_END, next, occupied)
  }

  function AllocateUnconfirmed(next: nat, occupied: set<Byte>): (r: Result<Allocation>)
    requires next < UTXO_CONFIRMED_POOL_START
  {
    Allocate(0, UTXO_CONFIRMED_POOL_START, next, occupied)
  }

  /** x comes before y in a cyclic scan that begins at start. */
  predicate ScannedBefore(start: nat, x: nat, y: nat) {
    if start <= y then start <= x < y else start <= x || x < y
  }

  lemma {:induction false} FirstFreeMeaning(lo: nat, end: nat, start: nat, occupied: set<Byte>, j: nat)
    requires lo <= start < end <= 256 && j <= end - lo
    ensures var k := FirstFree(lo, end, start, occupied, j);
      && (k.None? ==> forall i :: j <= i < end - lo ==> Slot(lo, end, start, i) in occupied)
      && (k.Some? ==> Slot(lo, end, start, k.value) !in occupied)
      && (k.Some? ==> forall i :: j <= i < k.value ==> Slot(lo, end, start, i) in occupied)
    decreases end - lo - j
  {
    if j < end - lo && Slot(lo, end, start, j) in occupied {
      FirstFreeMeaning(lo, end, start, occupied, j + 1);
    }
  }

  /** Allocation returns the first free slot in cyclic order, leaves the counter just behind it and
      in its pool, and fails exactly when the pool is full. */
  lemma AllocateMeaning(lo: nat, end: nat, start: nat, occupied: set<Byte>)
    requires lo <= start < end <= 256
    ensures var r := Allocate(lo, end, start, occupied);
      && (r.Err? <==> forall id: Byte :: lo <= id < end ==> id in occupied)
      && (r.Ok? ==>
           && r.value.id !in occupied
           && r.value.next == (if r.value.id == end - 1 then lo else r.value.id + 1)
           && forall id: Byte :: lo <= id < end && ScannedBefore(start, id, r.value.id) ==> id in occupied)
  {
    var r := Allocate(lo, end, start, occupied);
    var k := FirstFree(lo, end, start, occupied, 0);
    FirstFreeMeaning(lo, end, start, occupied, 0);
    forall id: Byte | lo <= id < end ensures Slot(lo, end, start, ScanPosition(lo, end, start, id)) == id {
    }
    if r.Err? {
      forall id: Byte | lo <= id < end ensures id in occupied {
        assert Slot(lo, end, start, ScanPosition(lo, end, start, id)) in occupied;
      }
    } else {
      forall id: Byte | lo <= id < end && ScannedBefore(start, id, r.value.id) ensures id in occupied {
        assert Slot(lo, end, start, ScanPosition(lo, end, start, id)) in occupied;
      }
    }
  }

  function ScanPosition(lo: nat, end: nat, start: nat, id: nat): (j: nat)
    requires lo <= start < end && lo <= id < end
    ensures j < end - lo
  {
    if start <= id then id - start else id + (end - lo) - start
  }
}
