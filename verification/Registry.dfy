// The in-memory UTXO registry as a list: sums, filters, removal.

module Registry {
  import opened Bytes
  import opened Types

  function SumAmounts(es: UtxoRegistry): int {
    if es == [] then 0 else SumAmounts(es[..|es| - 1]) + es[|es| - 1].amount
  }

  function Ids(es: UtxoRegistry): (ids: seq<Byte>)
    ensures |ids| == |es|
    ensures forall i :: 0 <= i < |es| ==> ids[i] == es[i].id
  {
    seq(|es|, i requires 0 <= i < |es| => es[i].id)
  }

  ghost function IdSet(es: UtxoRegistry): set<Byte> {
    set i | 0 <= i < |es| :: es[i].id
  }

  ghost predicate DistinctIds(es: UtxoRegistry) {
    forall i, j :: 0 <= i < j < |es| ==> es[i].id != es[j].id
  }

  predicate IsConfirmed(e: UtxoRegistryEntry) {
    e.id >= UTXO_CONFIRMED_POOL_START
  }

  /** The entries of one pool, in registry order. */
  function InPool(es: UtxoRegistry, confirmed: bool): (r: UtxoRegistry)
  {
    if es == [] then [] else
    var last := es[|es| - 1];
    InPool(es[..|es| - 1], confirmed) + if IsConfirmed(last) == confirmed then [last] else []
  }

  /** Registry without the entries of an id (slices.DeleteFunc). */
  function Without(es: UtxoRegistry, id: Byte): (r: UtxoRegistry)
  {
    if es == [] then [] else
    var last := es[|es| - 1];
    Without(es[..|es| - 1], id) + if last.id == id then [] else [last]
  }

  function WithoutAll(es: UtxoRegistry, ids: seq<Byte>): (r: UtxoRegistry)
    decreases |ids|
  {
    if ids == [] then es else Without(WithoutAll(es, ids[..|ids| - 1]), ids[|ids| - 1])
  }

  // --------------------------------------------------------------------- sums

  lemma {:induction false} SumAppend(a: UtxoRegistry, b: UtxoRegistry)
    ensures SumAmounts(a + b) == SumAmounts(a) + SumAmounts(b)
  {
    if b == [] {
      assert a + b == a;
    } else {
      SumAppend(a, b[..|b| - 1]);
      assert (a + b)[..|a + b| - 1] == a + b[..|b| - 1];
    }
  }

  // -------------------------------------------------------------------- pools

  lemma {:induction false} InPoolMember(es: UtxoRegistry, confirmed: bool, e: UtxoRegistryEntry)
    ensures e in InPool(es, confirmed) <==> e in es && IsConfirmed(e) == confirmed
  {
    if es != [] {
      InPoolMember(es[..|es| - 1], confirmed, e);
      assert es == es[..|es| - 1] + [es[|es| - 1]];
    }
  }

  lemma {:induction false} InPoolDistinct(es: UtxoRegistry, confirmed: bool)
    requires DistinctIds(es)
    ensures DistinctIds(InPool(es, confirmed))
  {
    if es != [] {
      var front, last := es[..|es| - 1], es[|es| - 1];
      InPoolDistinct(front, confirmed);
      var r := InPool(front, confirmed);
      forall i | 0 <= i < |r| ensures r[i].id != last.id {
        InPoolMember(front, confirmed, r[i]);
      }
    }
  }

  /** Removal keeps the order of what stays. */
  lemma {:induction false} WithoutPrefix(es: UtxoRegistry, id: Byte, i: nat)
    requires i <= |es|
    ensures Without(es[..i], id) <= Without(es, id)
  {
    if i < |es| {
      WithoutPrefix(es[..|es| - 1], id, i);
      assert es[..|es| - 1][..i] == es[..i];
    } else {
      assert es[..i] == es;
    }
  }

  lemma {:induction false} InPoolPrefix(es: UtxoRegistry, confirmed: bool, i: nat)
    requires i <= |es|
    ensures InPool(es[..i], confirmed) <= InPool(es, confirmed)
  {
    if i < |es| {
      InPoolPrefix(es[..|es| - 1], confirmed, i);
      assert es[..|es| - 1][..i] == es[..i];
    } else {
      assert es[..i] == es;
    }
  }

  // ------------------------------------------------------------------ removal

  lemma {:induction false} WithoutMember(es: UtxoRegistry, id: Byte, e: UtxoRegistryEntry)
    ensures e in Without(es, id) <==> e in es && e.id != id
  {
    if es != [] {
      WithoutMember(es[..|es| - 1], id, e);
      assert es == es[..|es| - 1] + [es[|es| - 1]];
    }
  }

  lemma {:induction false} WithoutDistinct(es: UtxoRegistry, id: Byte)
    requires DistinctIds(es)
    ensures DistinctIds(Without(es, id))
  {
    if es != [] {
      var front, last := es[..|es| - 1], es[|es| - 1];
      WithoutDistinct(front, id);
      var r := Without(front, id);
      forall i | 0 <= i < |r| ensures r[i].id != last.id {
        WithoutMember(front, id, r[i]);
      }
    }
  }

  lemma {:induction false} WithoutAbsent(es: UtxoRegistry, id: Byte)
    requires forall i :: 0 <= i < |es| ==> es[i].id != id
    ensures Without(es, id) == es
  {
    if es != [] {
      WithoutAbsent(es[..|es| - 1], id);
      assert es == es[..|es| - 1] + [es[|es| - 1]];
    }
  }

  lemma {:induction false} WithoutAppend(a: UtxoRegistry, b: UtxoRegistry, id: Byte)
    ensures Without(a + b, id) == Without(a, id) + Without(b, id)
  {
    if b == [] {
      assert a + b == a;
    } else {
      WithoutAppend(a, b[..|b| - 1], id);
      assert (a + b)[..|a + b| - 1] == a + b[..|b| - 1];
    }
  }

  /** Removing the only entry of an id takes exactly its amount out of the sum. */
  lemma {:induction false} SumWithout(es: UtxoRegistry, e: UtxoRegistryEntry)
    requires DistinctIds(es) && e in es
    ensures SumAmounts(Without(es, e.id)) == SumAmounts(es) - e.amount
  {
    var front, last := es[..|es| - 1], es[|es| - 1];
    if last.id == e.id {
      assert last == e;
      WithoutAbsent(front, e.id);
      assert Without(es, e.id) == front;
    } else {
      assert e in front;
      SumWithout(front, e);
      SumAppend(Without(front, e.id), [last]);
      assert SumAmounts([last]) == SumAmounts([last][..0]) + last.amount;
    }
  }

  lemma {:induction false} WithoutAllMember(es: UtxoRegistry, ids: seq<Byte>, e: UtxoRegistryEntry)
    ensures e in WithoutAll(es, ids) <==> e in es && e.id !in ids
    decreases |ids|
  {
    if ids != [] {
      hide Without;
      var front, last := ids[..|ids| - 1], ids[|ids| - 1];
      assert ids == front + [last];
      WithoutAllMember(es, front, e);
      WithoutMember(WithoutAll(es, front), last, e);
    }
  }

  lemma {:induction false} WithoutAllDistinct(es: UtxoRegistry, ids: seq<Byte>)
    requires DistinctIds(es)
    ensures DistinctIds(WithoutAll(es, ids))
    decreases |ids|
  {
    if ids != [] {
      WithoutAllDistinct(es, ids[..|ids| - 1]);
      WithoutDistinct(WithoutAll(es, ids[..|ids| - 1]), ids[|ids| - 1]);
    }
  }

  /** Removing several distinct entries takes exactly their amounts out of the sum. */
  lemma {:induction false} SumWithoutAll(es: UtxoRegistry, taken: UtxoRegistry)
    requires DistinctIds(es) && DistinctIds(taken)
    requires forall e :: e in taken ==> e in es
    ensures SumAmounts(WithoutAll(es, Ids(taken))) == SumAmounts(es) - SumAmounts(taken)
    decreases |taken|
  {
    if taken != [] {
      var front, last := taken[..|taken| - 1], taken[|taken| - 1];
      assert Ids(taken)[..|taken| - 1] == Ids(front);
      SumWithoutAll(es, front);
      WithoutAllDistinct(es, Ids(front));
      WithoutAllMember(es, Ids(front), last);
      SumWithout(WithoutAll(es, Ids(front)), last);
    }
  }

  /** Entries appended after the removed ones were listed stay, in place. */
  lemma {:induction false} WithoutAllAppend(a: UtxoRegistry, b: UtxoRegistry, ids: seq<Byte>)
    requires forall e :: e in b ==> e.id !in ids
    ensures WithoutAll(a + b, ids) == WithoutAll(a, ids) + b
    decreases |ids|
  {
    if ids != [] {
      var front, last := ids[..|ids| - 1], ids[|ids| - 1];
      assert ids == front + [last];
      WithoutAllAppend(a, b, front);
      WithoutAppend(WithoutAll(a, front), b, last);
      WithoutAbsent(b, last);
    }
  }
}
