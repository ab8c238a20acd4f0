/**
 * The shape both forecast generators share: for every group key, in key order, one record
 * per week 1..5 is pushed, and the array is then sorted. What the quantity of a slot is
 * differs between the two generators. It is a parameter here: a function of the key, the
 * week, and the number of records pushed before it (the generator with jitter reads its
 * random draw by that number).
 */
module ForecastSlots {
  import opened Records
  import opened Grouping
  import opened ForecastOrder

  /** `for (let week = 1; week <= 5; week++)`: the horizon, in weeks. */
  const Horizon: nat := 5

  /** The i-th pushed record: group i / 5, week i % 5 + 1. */
  function SlotRecord(keys: seq<Key>, quantity: (Key, int, nat) -> int, i: nat): ForecastRecord
    requires i < Horizon * |keys|
  {
    var k := keys[i / Horizon];
    var week := i % Horizon + 1;
    ForecastRecord(week, k.pdv, k.produto, quantity(k, week, i))
  }

  /** The records in the order the loops push them. */
  function PushOrder(keys: seq<Key>, quantity: (Key, int, nat) -> int): (u: seq<ForecastRecord>)
    ensures |u| == Horizon * |keys|
  {
    seq(Horizon * |keys|, i requires 0 <= i < Horizon * |keys| => SlotRecord(keys, quantity, i))
  }

  /** The records pushed so far are the first |recs| of the push order. */
  predicate PushedPrefix(recs: seq<ForecastRecord>, keys: seq<Key>, quantity: (Key, int, nat) -> int)
  {
    |recs| <= Horizon * |keys|
    && forall i :: 0 <= i < |recs| ==> recs[i] == SlotRecord(keys, quantity, i)
  }

  /** The record of group g for week w is pushed at position 5 g + w - 1. */
  lemma {:induction false} SlotOf(keys: seq<Key>, quantity: (Key, int, nat) -> int, g: int, week: int)
    requires 0 <= g < |keys| && 1 <= week <= Horizon
    ensures 5 * g + week - 1 < Horizon * |keys|
    ensures SlotRecord(keys, quantity, 5 * g + week - 1)
            == ForecastRecord(week, keys[g].pdv, keys[g].produto, quantity(keys[g], week, 5 * g + week - 1))
  {
    var i := 5 * g + week - 1;
    assert i / 5 == g && i % 5 == week - 1;
  }

  /** Pushing record 5 g + w - 1 extends a pushed prefix. */
  lemma {:induction false} PushNext(recs: seq<ForecastRecord>, keys: seq<Key>, quantity: (Key, int, nat) -> int,
                                    g: int, week: int)
    requires PushedPrefix(recs, keys, quantity)
    requires 0 <= g < |keys| && 1 <= week <= Horizon && |recs| == 5 * g + week - 1
    ensures PushedPrefix(recs + [ForecastRecord(week, keys[g].pdv, keys[g].produto, quantity(keys[g], week, |recs|))],
                         keys, quantity)
  {
    SlotOf(keys, quantity, g, week);
  }

  /** A full pushed prefix is the push order. */
  lemma {:induction false} PushedAll(recs: seq<ForecastRecord>, keys: seq<Key>, quantity: (Key, int, nat) -> int)
    requires PushedPrefix(recs, keys, quantity) && |recs| == Horizon * |keys|
    ensures recs == PushOrder(keys, quantity)
  {
  }

  lemma {:induction false} DivModSplit(i: int)
    requires i >= 0
    ensures i == 5 * (i / 5) + i % 5 && 0 <= i % 5 < 5
  {
  }

  /** Distinct keys give every pushed record its own (semana, pdv, produto) slot. */
  lemma {:induction false} PushOrderDistinctSlots(keys: seq<Key>, quantity: (Key, int, nat) -> int)
    requires NoDuplicates(keys)
    ensures DistinctSlots(PushOrder(keys, quantity))
  {
    var u := PushOrder(keys, quantity);
    forall i, j | 0 <= i < j < |u| ensures !SameSlot(u[i], u[j]) {
      DivModSplit(i);
      DivModSplit(j);
    }
  }

  /** The sorted output: the push order, sorted. */
  function SortedSlots(keys: seq<Key>, quantity: (Key, int, nat) -> int): seq<ForecastRecord>
  {
    SortRecords(PushOrder(keys, quantity))
  }

  /**
   * The output holds five records per key and no others, strictly ascending by
   * (semana, pdv, produto), as a permutation of the pushed records.
   */
  lemma {:induction false} SortedSlotsSpec(keys: seq<Key>, quantity: (Key, int, nat) -> int)
    requires NoDuplicates(keys)
    ensures |SortedSlots(keys, quantity)| == Horizon * |keys|
    ensures StrictlySorted(SortedSlots(keys, quantity))
    ensures multiset(SortedSlots(keys, quantity)) == multiset(PushOrder(keys, quantity))
  {
    PushOrderDistinctSlots(keys, quantity);
    SortRecordsStrict(PushOrder(keys, quantity));
    SortRecordsSpec(PushOrder(keys, quantity));
  }

  /** A record is in the output exactly when it is one of the pushed slot records. */
  lemma {:induction false} SortedSlotsMembers(keys: seq<Key>, quantity: (Key, int, nat) -> int, r: ForecastRecord)
    ensures r in SortedSlots(keys, quantity) <==>
            exists i :: 0 <= i < Horizon * |keys| && r == SlotRecord(keys, quantity, i)
  {
    var u := PushOrder(keys, quantity);
    SortRecordsMembers(u, r);
    if r in u {
      var i :| 0 <= i < |u| && u[i] == r;
      assert r == SlotRecord(keys, quantity, i);
    }
    if exists i :: 0 <= i < Horizon * |keys| && r == SlotRecord(keys, quantity, i) {
      var i :| 0 <= i < Horizon * |keys| && r == SlotRecord(keys, quantity, i);
      assert u[i] == r;
    }
  }

  /** Each output record is for a week in 1..5 and one of the keys. */
  lemma {:induction false} SortedSlotsWellFormed(keys: seq<Key>, quantity: (Key, int, nat) -> int, r: ForecastRecord)
    requires r in SortedSlots(keys, quantity)
    ensures 1 <= r.semana <= Horizon && RecordKey(r) in keys
    ensures exists i :: 0 <= i < Horizon * |keys| && r.quantidade == quantity(RecordKey(r), r.semana, i)
  {
    SortedSlotsMembers(keys, quantity, r);
    var i :| 0 <= i < Horizon * |keys| && r == SlotRecord(keys, quantity, i);
    DivModSplit(i);
  }

  /** Every key has its record for every week 1..5 in the output. */
  lemma {:induction false} SortedSlotsCover(keys: seq<Key>, quantity: (Key, int, nat) -> int, g: int, week: int)
    requires 0 <= g < |keys| && 1 <= week <= Horizon
    ensures ForecastRecord(week, keys[g].pdv, keys[g].produto, quantity(keys[g], week, 5 * g + week - 1))
            in SortedSlots(keys, quantity)
  {
    SlotOf(keys, quantity, g, week);
    SortedSlotsMembers(keys, quantity,
      ForecastRecord(week, keys[g].pdv, keys[g].produto, quantity(keys[g], week, 5 * g + week - 1)));
  }
}
