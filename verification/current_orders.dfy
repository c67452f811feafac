/**
 * The deliveries a worker holds while it handles orders, and the lists it
 * acknowledges when a response goes out
 * (rs_mcai_worker_sdk/src/message_exchange/rabbitmq/current_orders.rs).
 */
module CurrentOrdering {
  import opened Wrappers

  /** A message as the broker hands it over: its delivery tag and its body. */
  datatype Delivery = Delivery(tag: nat, data: string)

  /**
   * One slot per kind of order in progress. The `job` slot is the one the
   * consumer reads and writes (consumer.rs:229, 238); the reset functions
   * leave it alone.
   */
  datatype CurrentOrders = CurrentOrders(
    init: Option<Delivery>,
    start: Option<Delivery>,
    stop: Option<Delivery>,
    status: Option<Delivery>,
    job: Option<Delivery>)

  /** `CurrentOrders::default()`. */
  const NoOrders: CurrentOrders := CurrentOrders(None, None, None, None, None)

  /** `reset_process_deliveries`. */
  function ResetProcessDeliveries(c: CurrentOrders): (r: CurrentOrders)
    ensures r.init.None? && r.start.None? && r.stop.None?
    ensures r.status == c.status && r.job == c.job
  {
    c.(init := None, start := None, stop := None)
  }

  /** `reset_status_deliveries`. */
  function ResetStatusDeliveries(c: CurrentOrders): (r: CurrentOrders)
    ensures r.status.None?
    ensures r.init == c.init && r.start == c.start && r.stop == c.stop && r.job == c.job
  {
    c.(status := None)
  }

  /** How many slots of a list hold a delivery. */
  function CountSome(slots: seq<Option<Delivery>>): nat
    decreases |slots|
  {
    if |slots| == 0 then 0
    else CountSome(slots[..|slots| - 1]) + (if slots[|slots| - 1].Some? then 1 else 0)
  }

  /** The deliveries held by the slots, in slot order (the `filter`/`map` step). */
  function Present(slots: seq<Option<Delivery>>): (ds: seq<Delivery>)
    ensures |ds| == CountSome(slots)
    ensures |ds| == 0 <==> forall i :: 0 <= i < |slots| ==> slots[i].None?
    ensures forall d :: d in ds <==> Some(d) in slots
    decreases |slots|
  {
    if |slots| == 0 then []
    else
      var init := slots[..|slots| - 1];
      var rest := Present(init);
      assert slots == init + [slots[|slots| - 1]];
      match slots[|slots| - 1]
      case None => rest
      case Some(d) => rest + [d]
  }

  predicate SortedByTag(ds: seq<Delivery>) {
    forall i, j :: 0 <= i < j < |ds| ==> ds[i].tag <= ds[j].tag
  }

  /** The deliveries of a list that carry a given tag, in list order. */
  function WithTag(ds: seq<Delivery>, tag: nat): seq<Delivery>
    decreases |ds|
  {
    if |ds| == 0 then []
    else (if ds[0].tag == tag then [ds[0]] else []) + WithTag(ds[1..], tag)
  }

  /** Places `d` after every delivery whose tag is not larger. */
  function Insert(d: Delivery, ds: seq<Delivery>): (r: seq<Delivery>)
    requires SortedByTag(ds)
    ensures |r| == |ds| + 1
    ensures r[0] == d || (|ds| > 0 && r[0] == ds[0])
    ensures SortedByTag(r)
    ensures multiset(r) == multiset(ds) + multiset{d}
    decreases |ds|
  {
    if |ds| == 0 then [d]
    else if d.tag < ds[0].tag then [d] + ds
    else
      assert ds == [ds[0]] + ds[1..];
      var tail := Insert(d, ds[1..]);
      Prepend(ds[0], tail);
      [ds[0]] + tail
  }

  /** A delivery placed before a sorted list whose first tag is not smaller keeps it sorted. */
  lemma Prepend(x: Delivery, ds: seq<Delivery>)
    requires SortedByTag(ds) && (|ds| > 0 ==> x.tag <= ds[0].tag)
    ensures SortedByTag([x] + ds)
  {
    var r := [x] + ds;
    forall i, j | 0 <= i < j < |r| ensures r[i].tag <= r[j].tag {
      if i == 0 && j > 1 {
        assert ds[0].tag <= ds[j - 1].tag;
      }
    }
  }

  /** `sort_by` on the tag: a stable insertion sort. */
  function SortByTag(ds: seq<Delivery>): (r: seq<Delivery>)
    ensures SortedByTag(r)
    ensures multiset(r) == multiset(ds)
    ensures |r| == |ds|
    decreases |ds|
  {
    if |ds| == 0 then []
    else
      assert ds == ds[..|ds| - 1] + [ds[|ds| - 1]];
      Insert(ds[|ds| - 1], SortByTag(ds[..|ds| - 1]))
  }

  lemma {:induction false} WithTagAppend(a: seq<Delivery>, b: seq<Delivery>, tag: nat)
    ensures WithTag(a + b, tag) == WithTag(a, tag) + WithTag(b, tag)
    decreases |a|
  {
    if |a| > 0 {
      assert (a + b)[1..] == a[1..] + b;
      WithTagAppend(a[1..], b, tag);
    } else {
      assert a + b == b;
    }
  }

  /** Inserting adds `d` behind the deliveries of its own tag and disturbs no other tag. */
  lemma {:induction false} InsertStable(d: Delivery, ds: seq<Delivery>, tag: nat)
    requires SortedByTag(ds)
    ensures WithTag(Insert(d, ds), tag) == WithTag(ds, tag) + WithTag([d], tag)
    decreases |ds|
  {
    if |ds| == 0 {
      assert Insert(d, ds) == [d];
    } else if d.tag < ds[0].tag {
      InsertInFront(d, ds, tag);
    } else {
      InsertStable(d, ds[1..], tag);
      ConsWithTag(ds, Insert(d, ds[1..]), Insert(d, ds), [d], tag);
    }
  }

  lemma InsertInFront(d: Delivery, ds: seq<Delivery>, tag: nat)
    requires SortedByTag(ds) && |ds| > 0 && d.tag < ds[0].tag
    ensures WithTag(Insert(d, ds), tag) == WithTag(ds, tag) + WithTag([d], tag)
  {
    assert Insert(d, ds) == [d] + ds;
    WithTagAppend([d], ds, tag);
    assert WithTag([d], tag) == (if d.tag == tag then [d] else []) by {
      assert [d][1..] == [];
    }
    if d.tag == tag {
      NoSmallerTag(ds, d.tag);
    }
  }

  /** Putting the head of `ds` before a list that extends its tail by `extra` extends `ds` by `extra`, tag by tag. */
  lemma ConsWithTag(ds: seq<Delivery>, tail: seq<Delivery>, full: seq<Delivery>, extra: seq<Delivery>, tag: nat)
    requires |ds| > 0 && full == [ds[0]] + tail
    requires WithTag(tail, tag) == WithTag(ds[1..], tag) + WithTag(extra, tag)
    ensures WithTag(full, tag) == WithTag(ds, tag) + WithTag(extra, tag)
  {
    var h := if ds[0].tag == tag then [ds[0]] else [];
    assert full[0] == ds[0] && full[1..] == tail;
    assert WithTag(full, tag) == h + WithTag(tail, tag);
    assert WithTag(ds, tag) == h + WithTag(ds[1..], tag);
    Associative(h, WithTag(ds[1..], tag), WithTag(extra, tag));
  }

  lemma Associative(a: seq<Delivery>, b: seq<Delivery>, c: seq<Delivery>)
    ensures a + (b + c) == (a + b) + c
  {
  }

  /** A list sorted by tag whose first tag is above `tag` holds nothing of that tag. */
  lemma {:induction false} NoSmallerTag(ds: seq<Delivery>, tag: nat)
    requires SortedByTag(ds) && |ds| > 0 && tag < ds[0].tag
    ensures WithTag(ds, tag) == []
    decreases |ds|
  {
    if |ds| > 1 {
      NoSmallerTag(ds[1..], tag);
    }
  }

  /** The sort is stable: the deliveries of each tag keep their order. */
  lemma {:induction false} SortStable(ds: seq<Delivery>, tag: nat)
    ensures WithTag(SortByTag(ds), tag) == WithTag(ds, tag)
    decreases |ds|
  {
    if |ds| > 0 {
      var init, last := ds[..|ds| - 1], ds[|ds| - 1];
      var sorted := SortByTag(init);
      assert SortByTag(ds) == Insert(last, sorted);
      SortStable(init, tag);
      InsertStable(last, sorted, tag);
      AppendLast(ds, sorted, Insert(last, sorted), tag);
    }
  }

  /** A list matching all but the last of `ds` tag by tag, followed by that last delivery, matches `ds`. */
  lemma AppendLast(ds: seq<Delivery>, front: seq<Delivery>, full: seq<Delivery>, tag: nat)
    requires |ds| > 0 && WithTag(front, tag) == WithTag(ds[..|ds| - 1], tag)
    requires WithTag(full, tag) == WithTag(front, tag) + WithTag([ds[|ds| - 1]], tag)
    ensures WithTag(full, tag) == WithTag(ds, tag)
  {
    var init, last := ds[..|ds| - 1], ds[|ds| - 1];
    WithTagAppend(init, [last], tag);
    assert init + [last] == ds;
  }

  predicate NoAdjacentDuplicates(ds: seq<Delivery>) {
    forall i :: 0 <= i < |ds| - 1 ==> ds[i] != ds[i + 1]
  }

  /** `Vec::dedup`: keeps the first of every run of equal consecutive deliveries. */
  function Dedup(ds: seq<Delivery>): (r: seq<Delivery>)
    ensures |r| <= |ds|
    ensures |ds| > 0 ==> |r| > 0 && r[0] == ds[0]
    ensures forall d :: d in r <==> d in ds
    ensures NoAdjacentDuplicates(r)
    ensures SortedByTag(ds) ==> SortedByTag(r)
    decreases |ds|
  {
    if |ds| <= 1 then ds
    else
      var rest := Dedup(ds[1..]);
      assert ds == [ds[0]] + ds[1..];
      if ds[0] == ds[1] then rest
      else
        assert SortedByTag(ds) ==> forall k :: 0 <= k < |rest| ==> ds[0].tag <= rest[k].tag by {
          if SortedByTag(ds) {
            forall k | 0 <= k < |rest| ensures ds[0].tag <= rest[k].tag {
              assert rest[k] in ds[1..];
            }
          }
        }
        [ds[0]] + rest
  }

  /** `filter_sort_and_dedup_deliveries`. */
  function FilterSortAndDedup(slots: seq<Option<Delivery>>): (r: seq<Delivery>)
    ensures SortedByTag(r)
    ensures forall d :: d in r <==> Some(d) in slots
    ensures NoAdjacentDuplicates(r)
    ensures |r| <= CountSome(slots)
    ensures |r| == 0 <==> forall i :: 0 <= i < |slots| ==> slots[i].None?
  {
    var present := Present(slots);
    var sorted := SortByTag(present);
    assert forall d :: d in sorted <==> d in present by {
      forall d ensures d in sorted <==> d in present {
        assert d in sorted <==> d in multiset(sorted);
      }
    }
    Dedup(sorted)
  }

  /** Each slot's delivery once, when no two distinct deliveries share a tag. */
  ghost predicate TagsIdentify(slots: seq<Option<Delivery>>) {
    forall d, e :: Some(d) in slots && Some(e) in slots && d.tag == e.tag ==> d == e
  }

  /** With tags that identify their deliveries, the list is strictly ascending: no delivery twice. */
  lemma StrictlyAscending(slots: seq<Option<Delivery>>)
    requires TagsIdentify(slots)
    ensures var r := FilterSortAndDedup(slots);
            forall i, j :: 0 <= i < j < |r| ==> r[i].tag < r[j].tag
  {
    var r := FilterSortAndDedup(slots);
    forall i, j | 0 <= i < j < |r| ensures r[i].tag < r[j].tag {
      AdjacentAscending(slots, r, i);
      if j > i + 1 {
        assert r[i + 1].tag <= r[j].tag;
      }
    }
  }

  lemma AdjacentAscending(slots: seq<Option<Delivery>>, r: seq<Delivery>, i: nat)
    requires TagsIdentify(slots) && r == FilterSortAndDedup(slots) && i + 1 < |r|
    ensures r[i].tag < r[i + 1].tag
  {
    assert r[i] in r && r[i + 1] in r;
    assert Some(r[i]) in slots && Some(r[i + 1]) in slots;
    assert r[i] != r[i + 1];
  }

  /** `get_process_deliveries`: the init, start and stop deliveries to acknowledge. */
  function GetProcessDeliveries(c: CurrentOrders): (r: seq<Delivery>)
    ensures forall d :: d in r <==> Some(d) == c.init || Some(d) == c.start || Some(d) == c.stop
    ensures SortedByTag(r) && |r| <= 3
    ensures r == [] <==> c.init.None? && c.start.None? && c.stop.None?
  {
    var slots := [c.init, c.start, c.stop];
    CountAtMost(slots);
    ThreeSlots(slots, c);
    FilterSortAndDedup(slots)
  }

  lemma ThreeSlots(slots: seq<Option<Delivery>>, c: CurrentOrders)
    requires slots == [c.init, c.start, c.stop]
    ensures (forall i :: 0 <= i < |slots| ==> slots[i].None?) <==> c.init.None? && c.start.None? && c.stop.None?
  {
    if c.init.None? && c.start.None? && c.stop.None? {
      forall i | 0 <= i < |slots| ensures slots[i].None? {
        assert slots[i] in slots;
      }
    } else {
      assert slots[0].Some? || slots[1].Some? || slots[2].Some?;
    }
  }

  /** `get_status_deliveries`: the status delivery, if any. */
  function GetStatusDeliveries(c: CurrentOrders): (r: seq<Delivery>)
    ensures c.status.None? ==> r == []
    ensures c.status.Some? ==> r == [c.status.value]
  {
    SingleSlot(c.status);
    FilterSortAndDedup([c.status])
  }

  /** One slot gives its delivery, or nothing. */
  lemma SingleSlot(slot: Option<Delivery>)
    ensures slot.None? ==> FilterSortAndDedup([slot]) == []
    ensures slot.Some? ==> FilterSortAndDedup([slot]) == [slot.value]
  {
    var r := FilterSortAndDedup([slot]);
    CountOne(slot);
    if slot.Some? {
      assert Some(slot.value) in [slot];
      OnlyElement(r, slot.value);
    }
  }

  lemma CountOne(slot: Option<Delivery>)
    ensures CountSome([slot]) == if slot.Some? then 1 else 0
  {
    assert [slot][..0] == [];
  }

  lemma OnlyElement(r: seq<Delivery>, d: Delivery)
    requires |r| <= 1 && d in r
    ensures r == [d]
  {
  }

  lemma {:induction false} CountAtMost(slots: seq<Option<Delivery>>)
    ensures CountSome(slots) <= |slots|
    decreases |slots|
  {
    if |slots| > 0 {
      CountAtMost(slots[..|slots| - 1]);
    }
  }

  /** After a process reset nothing of the process is acknowledged twice; status and job stay. */
  lemma ResetClearsProcessDeliveries(c: CurrentOrders)
    ensures GetProcessDeliveries(ResetProcessDeliveries(c)) == []
    ensures GetStatusDeliveries(ResetProcessDeliveries(c)) == GetStatusDeliveries(c)
  {
  }

  /** A status reset leaves the process deliveries as they were. */
  lemma ResetClearsStatusDeliveries(c: CurrentOrders)
    ensures GetStatusDeliveries(ResetStatusDeliveries(c)) == []
    ensures GetProcessDeliveries(ResetStatusDeliveries(c)) == GetProcessDeliveries(c)
  {
  }

  /** Two slots holding the same delivery are acknowledged once. */
  lemma SharedDeliveryOnce(d: Delivery)
    ensures GetProcessDeliveries(CurrentOrders(Some(d), None, Some(d), None, None)) == [d]
  {
    var slots := [Some(d), None, Some(d)];
    assert slots[..2] == [Some(d), None];
    assert [Some(d), None][..1] == [Some(d)];
    assert [Some(d)][..0] == [];
    assert Present([Some(d)]) == [d];
    assert Present([Some(d), None]) == [d];
    assert Present(slots) == [d, d];
    assert [d, d][..1] == [d];
    assert SortByTag([d]) == [d];
    assert SortByTag([d, d]) == [d, d];
    assert [d, d][1..] == [d];
    assert Dedup([d, d]) == [d];
  }
}
