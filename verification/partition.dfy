/**
 * Splitting a list of items into the slots of an SGE array job
 * (`__generate_job_array__` and `indices` of the tool-chain executor).
 */
module Partition {
  import opened Wrappers

  /** An SGE array specification: first slot id, number of slots, step. */
  datatype ArraySpec = ArraySpec(first: int, count: int, step: int)

  /** The array used for a job that is not split: exactly one slot. */
  const SingleJob := ArraySpec(1, 1, 1)

  /**
   * The array for `items` elements and `perJob` elements per slot: slots
   * 1..count with count = ceil(items / perJob), i.e. the least count
   * whose slots hold every item.
   */
  function JobArray(items: nat, perJob: int): (a: ArraySpec)
    requires perJob >= 1
    ensures a.first == 1 && a.step == 1 && a.count >= 0
    ensures a.count * perJob >= items
    ensures (a.count - 1) * perJob < items
  {
    var count := (items + perJob - 1) / perJob;
    CeilingBounds(items, perJob);
    ArraySpec(1, count, 1)
  }

  lemma CeilingBounds(items: nat, perJob: int)
    requires perJob >= 1
    ensures (items + perJob - 1) / perJob >= 0
    ensures (items + perJob - 1) / perJob * perJob >= items
    ensures ((items + perJob - 1) / perJob - 1) * perJob < items
  {
    var q, r := (items + perJob - 1) / perJob, (items + perJob - 1) % perJob;
    assert q * perJob + r == items + perJob - 1;
    assert (q - 1) * perJob == q * perJob - perJob;
  }

  /**
   * The half-open range [start, end) of item indices handled by grid slot
   * `slot` (1-based); without a slot, i.e. outside the grid, the whole list.
   * The start is not clamped, so a slot past the last gives an empty range
   * whose start may exceed the list length.
   */
  function Indices(slot: Option<int>, items: nat, perJob: int): (r: (int, int))
    ensures slot.None? ==> r == (0, items)
    ensures r.1 <= items
    ensures slot.Some? && perJob >= 0 ==> r.1 - r.0 <= perJob
  {
    match slot
    case None => (0, items)
    case Some(s) =>
      var job := s - 1;
      var start := job * perJob;
      var end := Min((job + 1) * perJob, items);
      (start, end)
  }

  function Min(a: int, b: int): (m: int) {
    if a < b then a else b
  }

  /** Index `i` lies in the range handed out for `slot`. */
  predicate InSlot(i: int, slot: int, items: nat, perJob: int) {
    var r := Indices(Some(slot), items, perJob);
    r.0 <= i < r.1
  }

  /** A slot of the array gets a non-empty range inside the list, of at most `perJob` items. */
  lemma SlotWithinList(items: nat, perJob: int, slot: int)
    requires perJob >= 1
    requires 1 <= slot <= JobArray(items, perJob).count
    ensures var r := Indices(Some(slot), items, perJob);
      0 <= r.0 < r.1 <= items && r.1 - r.0 <= perJob && r.0 == (slot - 1) * perJob
  {
    var count := JobArray(items, perJob).count;
    MulMonotone(slot - 1, count - 1, perJob);
    MulMonotone(0, slot - 1, perJob);
  }

  lemma MulMonotone(a: int, b: int, n: int)
    requires a <= b && n >= 0
    ensures a * n <= b * n
  {
    assert b * n - a * n == (b - a) * n;
  }

  /**
   * The slots 1..count tile [0, items): the first starts at 0, each ends
   * where the next begins, and the last ends at `items`.
   */
  lemma SlotsTile(items: nat, perJob: int)
    requires perJob >= 1 && items > 0
    ensures var count := JobArray(items, perJob).count;
      && count >= 1
      && Indices(Some(1), items, perJob).0 == 0
      && (forall s :: 1 <= s < count ==>
            Indices(Some(s), items, perJob).1 == Indices(Some(s + 1), items, perJob).0)
      && Indices(Some(count), items, perJob).1 == items
  {
    var count := JobArray(items, perJob).count;
    if count < 1 {
      MulMonotone(count, 0, perJob);
      assert false;
    }
    forall s | 1 <= s < count
      ensures Indices(Some(s), items, perJob).1 == Indices(Some(s + 1), items, perJob).0
    {
      MulMonotone(s, count - 1, perJob);
    }
  }

  /**
   * Every index of the list is handled by exactly one slot, namely
   * slot i / perJob + 1, and that slot belongs to the array.
   */
  lemma IndexInExactlyOneSlot(items: nat, perJob: int, i: int, slot: int)
    requires perJob >= 1 && 0 <= i < items
    ensures 1 <= i / perJob + 1 <= JobArray(items, perJob).count
    ensures InSlot(i, slot, items, perJob) <==> slot == i / perJob + 1
  {
    var q := i / perJob;
    DivBounds(i, perJob);
    var count := JobArray(items, perJob).count;
    if q + 1 > count {
      MulMonotone(count, q, perJob);
      assert false;
    }
    var r := Indices(Some(slot), items, perJob);
    MulSucc(slot - 1, perJob);
    assert r.0 == (slot - 1) * perJob && r.1 == Min(slot * perJob, items);
    if slot <= q {
      MulMonotone(slot, q, perJob);
    } else if slot > q + 1 {
      MulMonotone(q + 1, slot - 1, perJob);
      MulSucc(q, perJob);
    }
  }

  /** The quotient's multiple lies in the last `n` values up to `i`. */
  lemma DivBounds(i: int, n: int)
    requires n >= 1
    ensures (i / n) * n <= i < (i / n) * n + n
  {
    assert (i / n) * n + i % n == i;
  }

  lemma MulSucc(a: int, n: int)
    ensures (a + 1) * n == a * n + n
  {
  }

  /** A slot past the array's last gives an empty range: start >= items >= end. */
  lemma SlotBeyondArray(items: nat, perJob: int, slot: int)
    requires perJob >= 1
    requires slot > JobArray(items, perJob).count
    ensures var r := Indices(Some(slot), items, perJob);
      r.0 >= items >= r.1
  {
    var count := JobArray(items, perJob).count;
    MulMonotone(count, slot - 1, perJob);
  }

  /** A non-empty list that fits one slot gets one slot; an empty list gets none. */
  lemma ArraySize(items: nat, perJob: int)
    requires perJob >= 1
    ensures 0 < items <= perJob ==> JobArray(items, perJob).count == 1
    ensures items == 0 <==> JobArray(items, perJob).count == 0
  {
    var count := JobArray(items, perJob).count;
    if count >= 2 {
      MulMonotone(1, count - 1, perJob);
    }
    if count == 0 {
      assert count * perJob == 0;
    }
  }

  /** Ten items, three per slot: four slots, and slot 5 gets the unclamped (12, 10). */
  lemma TenItemsThreePerSlot()
    ensures JobArray(10, 3) == ArraySpec(1, 4, 1)
    ensures Indices(Some(1), 10, 3) == (0, 3)
    ensures Indices(Some(4), 10, 3) == (9, 10)
    ensures Indices(Some(5), 10, 3) == (12, 10)
    ensures Indices(None, 10, 3) == (0, 10)
  {
  }
}
