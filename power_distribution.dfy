/** A model of the power allocator: a bounded power budget shared by a changing
    set of devices. Devices are admitted with an initial grant, removed, and
    update their consumption; after every change a single FIFO pass tops up the
    earliest-connected devices with whatever capacity is left.

    The pure functions below (Added, Removed, Updated, Redistributed) say what
    each operation does to the state; the class PowerAllocator performs the
    operations step by step and is proved against them. */
module PowerDistribution {

  /** The usable capacity: the ceiling the allocator tries to respect. */
  const SafeCapacity: int := 92

  /** The most power a device is ever topped up to by the allocator. */
  const DeviceMax: int := 40

  /** One entry of the active device list. Duplicate ids are possible. */
  datatype Device = Device(deviceId: string, timestamp: int, currentUsage: int, maxAllowed: int)

  function Min(a: int, b: int): (m: int)
    ensures m <= a && m <= b && (m == a || m == b)
  {
    if a <= b then a else b
  }

  // ---------------------------------------------------------------------------
  // Sums and lookup

  /** The real total of the usages in a device list. */
  function Sum(ds: seq<Device>): int
  {
    if ds == [] then 0 else ds[0].currentUsage + Sum(ds[1..])
  }

  lemma {:induction false} SumAppend(a: seq<Device>, b: seq<Device>)
    ensures Sum(a + b) == Sum(a) + Sum(b)
  {
    if a == [] {
      assert a + b == b;
    } else {
      assert (a + b)[1..] == a[1..] + b;
      SumAppend(a[1..], b);
    }
  }

  /** Splicing one record out of the list lowers the real total by its usage. */
  lemma {:induction false} SumRemoveAt(ds: seq<Device>, i: int)
    requires 0 <= i < |ds|
    ensures Sum(ds[..i] + ds[i + 1..]) == Sum(ds) - ds[i].currentUsage
  {
    assert ds == ds[..i] + ([ds[i]] + ds[i + 1..]);
    SumAppend(ds[..i], [ds[i]] + ds[i + 1..]);
    SumAppend([ds[i]], ds[i + 1..]);
    SumAppend(ds[..i], ds[i + 1..]);
  }

  /** Replacing one record changes the real total by the difference of the usages. */
  lemma {:induction false} SumReplaceAt(ds: seq<Device>, i: int, d: Device)
    requires 0 <= i < |ds|
    ensures Sum(ds[i := d]) == Sum(ds) - ds[i].currentUsage + d.currentUsage
  {
    assert ds == ds[..i] + ([ds[i]] + ds[i + 1..]);
    assert ds[i := d] == ds[..i] + ([d] + ds[i + 1..]);
    SumAppend(ds[..i], [ds[i]] + ds[i + 1..]);
    SumAppend([ds[i]], ds[i + 1..]);
    SumAppend(ds[..i], [d] + ds[i + 1..]);
    SumAppend([d], ds[i + 1..]);
  }

  /** Array.findIndex (and Array.find) on the device id: the position of the
      first record with that id, or -1 when there is none. */
  function FirstIndex(ds: seq<Device>, id: string): (r: int)
    ensures -1 <= r < |ds|
    ensures r == -1 <==> forall i :: 0 <= i < |ds| ==> ds[i].deviceId != id
    ensures 0 <= r ==> ds[r].deviceId == id && forall i :: 0 <= i < r ==> ds[i].deviceId != id
  {
    if ds == [] then -1
    else if ds[0].deviceId == id then 0
    else
      var r := FirstIndex(ds[1..], id);
      if r == -1 then -1 else r + 1
  }

  /** The first record carrying id is the one FirstIndex finds. */
  lemma {:induction false} FirstIndexAt(ds: seq<Device>, id: string, k: int)
    requires 0 <= k < |ds| && ds[k].deviceId == id
    requires forall i :: 0 <= i < k ==> ds[i].deviceId != id
    ensures FirstIndex(ds, id) == k
  {
    var r := FirstIndex(ds, id);
    assert r != -1 by { assert ds[k].deviceId == id; }
  }

  // ---------------------------------------------------------------------------
  // Ordering by connection time (Array.sort with a timestamp comparator, stable)

  predicate SortedByTimestamp(ds: seq<Device>)
  {
    forall i, j :: 0 <= i < j < |ds| ==> ds[i].timestamp <= ds[j].timestamp
  }

  /** The records of a list that carry timestamp t, in list order. */
  function WithTimestamp(ds: seq<Device>, t: int): seq<Device>
  {
    if ds == [] then []
    else (if ds[0].timestamp == t then [ds[0]] else []) + WithTimestamp(ds[1..], t)
  }

  /** Puts d in front of the first record whose timestamp is not smaller. */
  function Insert(d: Device, ds: seq<Device>): (r: seq<Device>)
    ensures |r| == |ds| + 1
    ensures r[0] == d || (ds != [] && r[0] == ds[0])
  {
    if ds == [] || d.timestamp <= ds[0].timestamp then [d] + ds
    else [ds[0]] + Insert(d, ds[1..])
  }

  lemma {:induction false} InsertPermutes(d: Device, ds: seq<Device>)
    ensures multiset(Insert(d, ds)) == multiset(ds) + multiset{d}
    ensures Sum(Insert(d, ds)) == Sum(ds) + d.currentUsage
  {
    if ds != [] && ds[0].timestamp < d.timestamp {
      InsertPermutes(d, ds[1..]);
      assert ds == [ds[0]] + ds[1..];
      assert ([ds[0]] + Insert(d, ds[1..]))[1..] == Insert(d, ds[1..]);
    }
  }

  lemma {:induction false} InsertSorted(d: Device, ds: seq<Device>)
    requires SortedByTimestamp(ds)
    ensures SortedByTimestamp(Insert(d, ds))
  {
    var r := Insert(d, ds);
    if ds == [] || d.timestamp <= ds[0].timestamp {
      assert r == [d] + ds;
      forall i, j | 0 <= i < j < |r| ensures r[i].timestamp <= r[j].timestamp {
        if i == 0 && ds != [] {
          assert ds[0].timestamp <= ds[j - 1].timestamp;
        }
      }
    } else {
      var rest := Insert(d, ds[1..]);
      InsertSorted(d, ds[1..]);
      assert r == [ds[0]] + rest;
      assert ds[0].timestamp <= rest[0].timestamp;
      forall i, j | 0 <= i < j < |r| ensures r[i].timestamp <= r[j].timestamp {
        if i == 0 {
          assert rest[0].timestamp <= rest[j - 1].timestamp || j == 1;
        } else {
          assert r[i] == rest[i - 1] && r[j] == rest[j - 1];
        }
      }
    }
  }

  /** The stable sort by ascending timestamp: a permutation of the list ... */
  function SortByTimestamp(ds: seq<Device>): (r: seq<Device>)
    ensures |r| == |ds|
  {
    if ds == [] then []
    else Insert(ds[0], SortByTimestamp(ds[1..]))
  }

  lemma {:induction false} SortPermutes(ds: seq<Device>)
    ensures multiset(SortByTimestamp(ds)) == multiset(ds)
    ensures Sum(SortByTimestamp(ds)) == Sum(ds)
  {
    if ds != [] {
      SortPermutes(ds[1..]);
      InsertPermutes(ds[0], SortByTimestamp(ds[1..]));
      assert ds == [ds[0]] + ds[1..];
    }
  }

  /** ... that is in ascending timestamp order ... */
  lemma {:induction false} SortSorted(ds: seq<Device>)
    ensures SortedByTimestamp(SortByTimestamp(ds))
  {
    if ds != [] {
      SortSorted(ds[1..]);
      InsertSorted(ds[0], SortByTimestamp(ds[1..]));
    }
  }

  lemma {:induction false} WithTimestampCons(x: Device, ds: seq<Device>, t: int)
    ensures WithTimestamp([x] + ds, t) == if x.timestamp == t then [x] + WithTimestamp(ds, t) else WithTimestamp(ds, t)
  {
    assert ([x] + ds)[1..] == ds;
  }

  lemma {:induction false} InsertStable(d: Device, ds: seq<Device>, t: int)
    ensures WithTimestamp(Insert(d, ds), t) == WithTimestamp([d] + ds, t)
  {
    if ds != [] && ds[0].timestamp < d.timestamp {
      var first, tail := ds[0], ds[1..];
      var rest := Insert(d, tail);
      assert Insert(d, ds) == [first] + rest;
      assert ds == [first] + tail;
      InsertStable(d, tail, t);
      WithTimestampCons(first, rest, t);
      WithTimestampCons(d, tail, t);
      WithTimestampCons(d, ds, t);
      WithTimestampCons(first, tail, t);
      if d.timestamp == t {
        assert first.timestamp != t;
        calc {
          WithTimestamp(Insert(d, ds), t);
          WithTimestamp(rest, t);
          [d] + WithTimestamp(tail, t);
          [d] + WithTimestamp(ds, t);
        }
      } else {
        calc {
          WithTimestamp(Insert(d, ds), t);
          (if first.timestamp == t then [first] else []) + WithTimestamp(rest, t);
          (if first.timestamp == t then [first] else []) + WithTimestamp(tail, t);
          WithTimestamp(ds, t);
        }
      }
    }
  }

  /** ... and in which records with equal timestamps keep their relative order. */
  lemma {:induction false} SortStable(ds: seq<Device>, t: int)
    ensures WithTimestamp(SortByTimestamp(ds), t) == WithTimestamp(ds, t)
  {
    if ds != [] {
      SortStable(ds[1..], t);
      InsertStable(ds[0], SortByTimestamp(ds[1..]), t);
      assert ([ds[0]] + SortByTimestamp(ds[1..]))[1..] == SortByTimestamp(ds[1..]);
    }
  }

  /** A list already in timestamp order is left as it is by the sort. */
  lemma {:induction false} SortOfSorted(ds: seq<Device>)
    requires SortedByTimestamp(ds)
    ensures SortByTimestamp(ds) == ds
  {
    if ds != [] {
      SortOfSorted(ds[1..]);
      assert ds == [ds[0]] + ds[1..];
    }
  }

  // ---------------------------------------------------------------------------
  // The FIFO top-up pass

  /** The grant the pass makes to device d when `remaining` capacity is left. */
  function Extra(d: Device, remaining: int): (g: int)
    ensures 0 <= g
    ensures 0 < g <==> d.currentUsage < DeviceMax && 0 < remaining
    ensures 0 < g ==> g <= remaining && d.currentUsage + g <= DeviceMax
    ensures 0 < g ==> d.currentUsage + g == DeviceMax || g == remaining
  {
    if d.currentUsage < DeviceMax && remaining > 0 then Min(DeviceMax - d.currentUsage, remaining) else 0
  }

  /** `after` is `before` with its usage possibly raised towards DeviceMax:
      never lowered, raised only from below DeviceMax and never past it, and no
      other field changed. */
  predicate Raised(before: Device, after: Device)
  {
    after.deviceId == before.deviceId && after.timestamp == before.timestamp &&
    after.maxAllowed == before.maxAllowed &&
    before.currentUsage <= after.currentUsage &&
    (before.currentUsage < after.currentUsage ==> before.currentUsage < DeviceMax && after.currentUsage <= DeviceMax)
  }

  /** The spare capacity a forward pass over ds, started with `remaining`, still
      has when it reaches position k. */
  function SpareBefore(ds: seq<Device>, remaining: int, k: int): (spare: int)
    requires 0 <= k <= |ds|
    ensures spare <= remaining
    ensures 0 <= remaining ==> 0 <= spare
    ensures remaining <= 0 ==> spare == remaining
    decreases k
  {
    if k == 0 then remaining
    else SpareBefore(ds, remaining, k - 1) - Extra(ds[k - 1], SpareBefore(ds, remaining, k - 1))
  }

  /** Device k as the pass leaves it. */
  function ToppedUp(ds: seq<Device>, remaining: int, k: int): (d: Device)
    requires 0 <= k < |ds|
    ensures Raised(ds[k], d)
  {
    ds[k].(currentUsage := ds[k].currentUsage + Extra(ds[k], SpareBefore(ds, remaining, k)))
  }

  /** One forward pass over ds starting with `remaining` spare capacity: the
      topped-up list and the capacity left afterwards. */
  function TopUp(ds: seq<Device>, remaining: int): (r: (seq<Device>, int))
    ensures r.1 <= remaining && (0 <= remaining ==> 0 <= r.1)
  {
    (seq(|ds|, k requires 0 <= k < |ds| => ToppedUp(ds, remaining, k)), SpareBefore(ds, remaining, |ds|))
  }

  /** What the pass does at position i, spelled out as the loop of
      RedistributePower performs it. */
  lemma {:induction false} PassStep(ds: seq<Device>, remaining: int, i: int)
    requires 0 <= i < |ds|
    ensures var spare := SpareBefore(ds, remaining, i);
            if ds[i].currentUsage < DeviceMax && spare > 0 then
              var g := Min(DeviceMax - ds[i].currentUsage, spare);
              ToppedUp(ds, remaining, i) == ds[i].(currentUsage := ds[i].currentUsage + g) &&
              SpareBefore(ds, remaining, i + 1) == spare - g
            else
              ToppedUp(ds, remaining, i) == ds[i] && SpareBefore(ds, remaining, i + 1) == spare
  {
  }

  /** The spare capacity only shrinks as the pass moves on. */
  lemma {:induction false} SpareShrinks(ds: seq<Device>, remaining: int, i: int, j: int)
    requires 0 <= i <= j <= |ds|
    ensures SpareBefore(ds, remaining, j) <= SpareBefore(ds, remaining, i)
    decreases j
  {
    if i < j {
      SpareShrinks(ds, remaining, i, j - 1);
    }
  }

  /** If capacity is still spare at position k, every device before k has been
      left at DeviceMax or above. */
  lemma {:induction false} SpareMeansSaturated(ds: seq<Device>, remaining: int, k: int)
    requires 0 <= k <= |ds|
    requires 0 < SpareBefore(ds, remaining, k)
    ensures forall i :: 0 <= i < k ==> DeviceMax <= ToppedUp(ds, remaining, i).currentUsage
  {
    forall i | 0 <= i < k ensures DeviceMax <= ToppedUp(ds, remaining, i).currentUsage {
      SpareShrinks(ds, remaining, i + 1, k);
    }
  }

  /** If capacity is still spare after the pass, every device is at DeviceMax or above. */
  lemma {:induction false} TopUpSaturates(ds: seq<Device>, remaining: int)
    ensures 0 < TopUp(ds, remaining).1 ==>
              forall i :: 0 <= i < |ds| ==> DeviceMax <= TopUp(ds, remaining).0[i].currentUsage
  {
    if 0 < TopUp(ds, remaining).1 {
      SpareMeansSaturated(ds, remaining, |ds|);
    }
  }

  /** FIFO: a device that receives a grant in the pass comes after devices that
      all end the pass at DeviceMax or above. */
  lemma {:induction false} TopUpFifo(ds: seq<Device>, remaining: int, i: int, j: int)
    requires 0 <= i < j < |ds|
    requires ds[j].currentUsage < TopUp(ds, remaining).0[j].currentUsage
    ensures DeviceMax <= TopUp(ds, remaining).0[i].currentUsage
  {
    assert TopUp(ds, remaining).0[j] == ToppedUp(ds, remaining, j);
    SpareMeansSaturated(ds, remaining, j);
  }

  /** The pass over the first k devices adds to the real total exactly what it
      takes from the spare capacity. */
  lemma {:induction false} TopUpSumPrefix(ds: seq<Device>, remaining: int, k: int)
    requires 0 <= k <= |ds|
    ensures Sum(TopUp(ds, remaining).0[..k]) == Sum(ds[..k]) + (remaining - SpareBefore(ds, remaining, k))
    decreases k
  {
    var topped := TopUp(ds, remaining).0;
    if k == 0 {
      assert topped[..0] == [] && ds[..0] == [];
    } else {
      TopUpSumPrefix(ds, remaining, k - 1);
      assert topped[..k] == topped[..k - 1] + [topped[k - 1]];
      assert ds[..k] == ds[..k - 1] + [ds[k - 1]];
      SumAppend(topped[..k - 1], [topped[k - 1]]);
      SumAppend(ds[..k - 1], [ds[k - 1]]);
    }
  }

  /** The pass adds to the real total exactly what it takes from the spare capacity. */
  lemma {:induction false} TopUpSum(ds: seq<Device>, remaining: int)
    ensures Sum(TopUp(ds, remaining).0) == Sum(ds) + (remaining - TopUp(ds, remaining).1)
  {
    TopUpSumPrefix(ds, remaining, |ds|);
    assert TopUp(ds, remaining).0[..|ds|] == TopUp(ds, remaining).0;
    assert ds[..|ds|] == ds;
  }

  /** With no spare capacity, or with every device saturated, the spare capacity
      never moves. */
  lemma {:induction false} SpareUnchanged(ds: seq<Device>, remaining: int, k: int)
    requires 0 <= k <= |ds|
    requires remaining <= 0 || forall i :: 0 <= i < |ds| ==> DeviceMax <= ds[i].currentUsage
    ensures SpareBefore(ds, remaining, k) == remaining
    decreases k
  {
    if k > 0 {
      SpareUnchanged(ds, remaining, k - 1);
    }
  }

  /** With no spare capacity, or with every device saturated, the pass changes nothing. */
  lemma {:induction false} TopUpUnchanged(ds: seq<Device>, remaining: int)
    requires remaining <= 0 || forall i :: 0 <= i < |ds| ==> DeviceMax <= ds[i].currentUsage
    ensures TopUp(ds, remaining) == (ds, remaining)
  {
    forall k | 0 <= k < |ds| ensures TopUp(ds, remaining).0[k] == ds[k] {
      SpareUnchanged(ds, remaining, k);
    }
    assert TopUp(ds, remaining).0 == ds;
    SpareUnchanged(ds, remaining, |ds|);
  }

  /** A second pass right after the first changes nothing. */
  lemma {:induction false} TopUpFixedPoint(ds: seq<Device>, remaining: int)
    ensures TopUp(TopUp(ds, remaining).0, TopUp(ds, remaining).1) == TopUp(ds, remaining)
  {
    TopUpSaturates(ds, remaining);
    TopUpUnchanged(TopUp(ds, remaining).0, TopUp(ds, remaining).1);
  }

  // ---------------------------------------------------------------------------
  // redistributePower

  /** Sort by connection time, then one top-up pass with the capacity that the
      tracked total leaves under SafeCapacity; the second component is the new
      tracked total. */
  function Redistributed(ds: seq<Device>, total: int): (r: (seq<Device>, int))
    ensures |r.0| == |ds|
    ensures total <= r.1
    ensures total <= SafeCapacity ==> r.1 <= SafeCapacity
  {
    var passed := TopUp(SortByTimestamp(ds), SafeCapacity - total);
    (passed.0, SafeCapacity - passed.1)
  }

  /** A list whose every record is the sorted list's record as the pass leaves
      it is the list that redistribution produces. */
  lemma {:induction false} RedistributedPointwise(ds: seq<Device>, total: int, topped: seq<Device>)
    requires |topped| == |ds|
    requires forall k :: 0 <= k < |ds| ==> topped[k] == ToppedUp(SortByTimestamp(ds), SafeCapacity - total, k)
    ensures Redistributed(ds, total) == (topped, SafeCapacity - SpareBefore(SortByTimestamp(ds), SafeCapacity - total, |ds|))
  {
    assert topped == TopUp(SortByTimestamp(ds), SafeCapacity - total).0;
  }

  /** Afterwards the list is a stable reordering of the old one by timestamp in
      which each record keeps its id, timestamp and maxAllowed and is at most
      raised towards DeviceMax. */
  lemma {:induction false} RedistributedRaises(ds: seq<Device>, total: int, i: int)
    requires 0 <= i < |ds|
    ensures Raised(SortByTimestamp(ds)[i], Redistributed(ds, total).0[i])
  {
  }

  /** Afterwards the list is in ascending timestamp order. */
  lemma {:induction false} RedistributedSorted(ds: seq<Device>, total: int)
    ensures SortedByTimestamp(Redistributed(ds, total).0)
  {
    var sorted := SortByTimestamp(ds);
    var topped := Redistributed(ds, total).0;
    SortSorted(ds);
    forall i, j | 0 <= i < j < |topped| ensures topped[i].timestamp <= topped[j].timestamp {
      assert Raised(sorted[i], topped[i]) && Raised(sorted[j], topped[j]);
    }
  }

  /** One pass reaches the fixed point: either the tracked total has reached
      SafeCapacity or every device is at DeviceMax or above. */
  lemma {:induction false} RedistributedSaturates(ds: seq<Device>, total: int)
    ensures SafeCapacity <= Redistributed(ds, total).1 ||
            forall i :: 0 <= i < |ds| ==> DeviceMax <= Redistributed(ds, total).0[i].currentUsage
  {
    TopUpSaturates(SortByTimestamp(ds), SafeCapacity - total);
  }

  /** The pass raises the tracked total by exactly what it grants to the
      devices, so any gap between the tracked and the real total is kept. */
  lemma {:induction false} RedistributedKeepsSum(ds: seq<Device>, total: int)
    ensures Redistributed(ds, total).1 - total == Sum(Redistributed(ds, total).0) - Sum(ds)
  {
    var sorted := SortByTimestamp(ds);
    TopUpSum(sorted, SafeCapacity - total);
    SortPermutes(ds);
  }

  /** Redistributing twice in a row is the same as once: the first pass leaves
      a sorted, settled state, which the second leaves as it is. */
  lemma {:induction false} RedistributedIdempotent(ds: seq<Device>, total: int)
    ensures Redistributed(Redistributed(ds, total).0, Redistributed(ds, total).1) == Redistributed(ds, total)
  {
    var once := Redistributed(ds, total);
    RedistributedSorted(ds, total);
    RedistributedSaturates(ds, total);
    RedistributedSettled(once.0, once.1);
  }

  /** A state that is in timestamp order and has no spare capacity or no device
      below DeviceMax is left exactly as it is. */
  lemma {:induction false} RedistributedSettled(ds: seq<Device>, total: int)
    requires SortedByTimestamp(ds)
    requires SafeCapacity <= total || forall i :: 0 <= i < |ds| ==> DeviceMax <= ds[i].currentUsage
    ensures Redistributed(ds, total) == (ds, total)
  {
    SortOfSorted(ds);
    TopUpUnchanged(ds, SafeCapacity - total);
  }

  /** FIFO over the whole operation: the grant at position j comes only after
      every earlier position is full. */
  lemma {:induction false} RedistributedFifo(ds: seq<Device>, total: int, i: int, j: int)
    requires 0 <= i < j < |ds|
    requires SortByTimestamp(ds)[j].currentUsage < Redistributed(ds, total).0[j].currentUsage
    ensures DeviceMax <= Redistributed(ds, total).0[i].currentUsage
  {
    TopUpFifo(SortByTimestamp(ds), SafeCapacity - total, i, j);
  }

  // ---------------------------------------------------------------------------
  // addDevice, removeDevice, updateDevice as functions of the state

  /** What addDevice grants a newcomer when the tracked total is `total`. */
  function Grant(total: int): (g: int)
    ensures g <= DeviceMax && total + g <= SafeCapacity
    ensures g == DeviceMax || total + g == SafeCapacity
    ensures total <= SafeCapacity ==> 0 <= g
    ensures SafeCapacity < total ==> g == SafeCapacity - total < 0
  {
    Min(SafeCapacity - total, DeviceMax)
  }

  function Added(ds: seq<Device>, total: int, id: string, timestamp: int): (r: (seq<Device>, int))
    ensures |r.0| == |ds| + 1
    ensures total + Grant(total) <= r.1
    ensures total <= SafeCapacity ==> r.1 <= SafeCapacity
  {
    var g := Grant(total);
    Redistributed(ds + [Device(id, timestamp, g, g)], total + g)
  }

  /** The newcomer is in the list afterwards with its id, timestamp and
      maxAllowed, and with a usage of at least its grant. */
  lemma {:induction false} AddedHoldsNewcomer(ds: seq<Device>, total: int, id: string, timestamp: int)
    ensures exists k :: 0 <= k < |Added(ds, total, id, timestamp).0| &&
              Raised(Device(id, timestamp, Grant(total), Grant(total)), Added(ds, total, id, timestamp).0[k])
  {
    var g := Grant(total);
    var d := Device(id, timestamp, g, g);
    var sorted := SortByTimestamp(ds + [d]);
    SortPermutes(ds + [d]);
    assert (ds + [d])[|ds|] == d;
    assert d in multiset(sorted);
    var k :| 0 <= k < |sorted| && sorted[k] == d;
    RedistributedRaises(ds + [d], total + g, k);
    assert Added(ds, total, id, timestamp) == Redistributed(ds + [d], total + g);
    assert Raised(d, Added(ds, total, id, timestamp).0[k]);
  }

  /** Every record, the old ones and the newcomer, comes through the pass in
      timestamp order, raised at most. */
  lemma {:induction false} AddedRaises(ds: seq<Device>, total: int, id: string, timestamp: int)
    ensures forall k :: 0 <= k < |ds| + 1 ==>
              Raised(SortByTimestamp(ds + [Device(id, timestamp, Grant(total), Grant(total))])[k],
                     Added(ds, total, id, timestamp).0[k])
  {
    var g := Grant(total);
    var appended := ds + [Device(id, timestamp, g, g)];
    var sorted, after := SortByTimestamp(appended), Redistributed(appended, total + g).0;
    assert Added(ds, total, id, timestamp).0 == after;
    forall k | 0 <= k < |appended| ensures Raised(sorted[k], after[k]) {
      RedistributedRaises(appended, total + g, k);
    }
  }

  /** addDevice raises the tracked total by exactly the grant plus what the
      pass grants, so any gap between the tracked and the real total is
      carried over unchanged. */
  lemma {:induction false} AddedKeepsSum(ds: seq<Device>, total: int, id: string, timestamp: int)
    ensures Added(ds, total, id, timestamp).1 - Sum(Added(ds, total, id, timestamp).0) == total - Sum(ds)
  {
    var g := Grant(total);
    var d := Device(id, timestamp, g, g);
    SumAppend(ds, [d]);
    assert Sum([d]) == g;
    RedistributedKeepsSum(ds + [d], total + g);
  }

  function Removed(ds: seq<Device>, total: int, id: string): (r: (seq<Device>, int))
    ensures FirstIndex(ds, id) == -1 ==> r == (ds, total)
    ensures FirstIndex(ds, id) != -1 ==>
              |r.0| == |ds| - 1 && total - ds[FirstIndex(ds, id)].currentUsage <= r.1
  {
    var i := FirstIndex(ds, id);
    if i == -1 then (ds, total)
    else Redistributed(ds[..i] + ds[i + 1..], total - ds[i].currentUsage)
  }

  /** Removing a record whose usage is not negative keeps the tracked total
      within SafeCapacity. */
  lemma {:induction false} RemovedKeepsBound(ds: seq<Device>, total: int, id: string)
    requires total <= SafeCapacity
    requires FirstIndex(ds, id) == -1 || 0 <= ds[FirstIndex(ds, id)].currentUsage
    ensures Removed(ds, total, id).1 <= SafeCapacity
  {
  }

  /** removeDevice lowers the tracked total by exactly the removed usage and
      raises it by exactly what the pass grants, so any gap between the tracked
      and the real total is carried over unchanged. */
  lemma {:induction false} RemovedKeepsSum(ds: seq<Device>, total: int, id: string)
    ensures Removed(ds, total, id).1 - Sum(Removed(ds, total, id).0) == total - Sum(ds)
  {
    var i := FirstIndex(ds, id);
    if i != -1 {
      SumRemoveAt(ds, i);
      RedistributedKeepsSum(ds[..i] + ds[i + 1..], total - ds[i].currentUsage);
    }
  }

  /** Array.splice of one record takes exactly that record out of the list. */
  lemma {:induction false} SpliceOut(ds: seq<Device>, i: int)
    requires 0 <= i < |ds|
    ensures multiset(ds[..i] + ds[i + 1..]) == multiset(ds) - multiset{ds[i]}
  {
    assert ds == ds[..i] + [ds[i]] + ds[i + 1..];
  }

  /** The records that removal hands to the pass, in timestamp order, are
      exactly the old ones less the first record with the id. */
  lemma {:induction false} RemovedDropsFirst(ds: seq<Device>, total: int, id: string, i: int)
    requires i == FirstIndex(ds, id) != -1
    ensures multiset(SortByTimestamp(ds[..i] + ds[i + 1..])) == multiset(ds) - multiset{ds[i]}
  {
    SpliceOut(ds, i);
    SortPermutes(ds[..i] + ds[i + 1..]);
  }

  /** After the removal, each remaining record, in timestamp order, comes out
      of the pass raised at most. */
  lemma {:induction false} RemovedRaises(ds: seq<Device>, total: int, id: string, i: int)
    requires i == FirstIndex(ds, id) != -1
    ensures forall k :: 0 <= k < |ds| - 1 ==>
              Raised(SortByTimestamp(ds[..i] + ds[i + 1..])[k], Removed(ds, total, id).0[k])
  {
    var rest := ds[..i] + ds[i + 1..];
    var sorted, after := SortByTimestamp(rest), Redistributed(rest, total - ds[i].currentUsage).0;
    assert Removed(ds, total, id).0 == after;
    forall k | 0 <= k < |rest| ensures Raised(sorted[k], after[k]) {
      RedistributedRaises(rest, total - ds[i].currentUsage, k);
    }
  }

  /** Whether updateDevice takes the accepting branch (or finds nothing to update):
      the first record with the id may move to `newConsumption` without the
      tracked total passing SafeCapacity. */
  function Accepted(ds: seq<Device>, total: int, id: string, newConsumption: int): (accepted: bool)
    ensures FirstIndex(ds, id) == -1 ==> accepted
    ensures (FirstIndex(ds, id) != -1 && total <= SafeCapacity &&
             newConsumption <= ds[FirstIndex(ds, id)].currentUsage) ==> accepted
    ensures (FirstIndex(ds, id) != -1 && SafeCapacity < total &&
             ds[FirstIndex(ds, id)].currentUsage <= newConsumption) ==> !accepted
  {
    var i := FirstIndex(ds, id);
    i == -1 || total + (newConsumption - ds[i].currentUsage) <= SafeCapacity
  }

  function Updated(ds: seq<Device>, total: int, id: string, newConsumption: int): (r: (seq<Device>, int))
    ensures FirstIndex(ds, id) == -1 ==> r == (ds, total)
    ensures |r.0| == |ds|
    ensures total <= SafeCapacity ==> r.1 <= SafeCapacity
  {
    var i := FirstIndex(ds, id);
    if i == -1 then (ds, total)
    else
      var d := ds[i];
      if Accepted(ds, total, id, newConsumption) then
        Redistributed(ds[i := d.(currentUsage := newConsumption)], total + (newConsumption - d.currentUsage))
      else
        Redistributed(ds[i := d.(currentUsage := d.maxAllowed)], total)
  }

  /** An accepted update moves the tracked total by exactly the change of usage
      plus what the pass grants, so any gap between the tracked and the real
      total is carried over unchanged. */
  lemma {:induction false} UpdatedAcceptKeepsSum(ds: seq<Device>, total: int, id: string, newConsumption: int)
    requires Accepted(ds, total, id, newConsumption)
    ensures Updated(ds, total, id, newConsumption).1 - Sum(Updated(ds, total, id, newConsumption).0) == total - Sum(ds)
  {
    var i := FirstIndex(ds, id);
    if i != -1 {
      var d := ds[i];
      SumReplaceAt(ds, i, d.(currentUsage := newConsumption));
      RedistributedKeepsSum(ds[i := d.(currentUsage := newConsumption)], total + (newConsumption - d.currentUsage));
    }
  }

  /** An update changes only the first record with the id: it takes
      newConsumption when accepted and its maxAllowed otherwise, and its other
      fields stay. Every record then comes through the pass raised at most, and
      the tracked total moves by the accepted change or not at all before it. */
  lemma {:induction false} UpdatedRaises(ds: seq<Device>, total: int, id: string, newConsumption: int, i: int)
    requires i == FirstIndex(ds, id) != -1
    ensures var accepted := Accepted(ds, total, id, newConsumption);
            var changed := ds[i := ds[i].(currentUsage := if accepted then newConsumption else ds[i].maxAllowed)];
            var r := Updated(ds, total, id, newConsumption);
            (forall k :: 0 <= k < |ds| ==> Raised(SortByTimestamp(changed)[k], r.0[k])) &&
            (if accepted then total + (newConsumption - ds[i].currentUsage) else total) <= r.1
  {
    var accepted := Accepted(ds, total, id, newConsumption);
    var changed := ds[i := ds[i].(currentUsage := if accepted then newConsumption else ds[i].maxAllowed)];
    var start := if accepted then total + (newConsumption - ds[i].currentUsage) else total;
    var sorted, after := SortByTimestamp(changed), Redistributed(changed, start);
    assert Updated(ds, total, id, newConsumption) == after;
    forall k | 0 <= k < |ds| ensures Raised(sorted[k], after.0[k]) {
      RedistributedRaises(changed, start, k);
    }
  }

  /** A rejected update resets the record to its maxAllowed but leaves the
      tracked total as it was: the gap between the tracked and the real total
      grows by the record's old usage less its maxAllowed. */
  lemma {:induction false} UpdatedRejectDrifts(ds: seq<Device>, total: int, id: string, newConsumption: int)
    requires !Accepted(ds, total, id, newConsumption)
    ensures var d := ds[FirstIndex(ds, id)];
            var r := Updated(ds, total, id, newConsumption);
            r.1 - Sum(r.0) == total - Sum(ds) + d.currentUsage - d.maxAllowed
  {
    var i := FirstIndex(ds, id);
    var d := ds[i];
    SumReplaceAt(ds, i, d.(currentUsage := d.maxAllowed));
    RedistributedKeepsSum(ds[i := d.(currentUsage := d.maxAllowed)], total);
  }

  // ---------------------------------------------------------------------------
  // The allocator

  class PowerAllocator {
    /** The tracked total; it is kept incrementally and is not recomputed. */
    var currentConsumption: int
    var activeDevices: seq<Device>

    /** The tracked total equals the real total of the usages. */
    ghost predicate Consistent()
      reads this
    {
      currentConsumption == Sum(activeDevices)
    }

    constructor ()
      ensures currentConsumption == 0 && activeDevices == []
      ensures Consistent()
    {
      currentConsumption := 0;
      activeDevices := [];
    }

    method AddDevice(deviceId: string, timestamp: int)
      modifies this
      ensures (activeDevices, currentConsumption) ==
              Added(old(activeDevices), old(currentConsumption), deviceId, timestamp)
      ensures old(currentConsumption) <= SafeCapacity ==> currentConsumption <= SafeCapacity
      ensures old(Consistent()) ==> Consistent()
    {
      ghost var before, total := activeDevices, currentConsumption;
      var allocatedPower := Grant(currentConsumption);
      currentConsumption := currentConsumption + allocatedPower;
      activeDevices := activeDevices + [Device(deviceId, timestamp, allocatedPower, allocatedPower)];
      RedistributePower();
      assert (activeDevices, currentConsumption) == Added(before, total, deviceId, timestamp);
      if total == Sum(before) {
        AddedKeepsSum(before, total, deviceId, timestamp);
      }
    }

    method RemoveDevice(deviceId: string)
      modifies this
      ensures (activeDevices, currentConsumption) ==
              Removed(old(activeDevices), old(currentConsumption), deviceId)
      ensures FirstIndex(old(activeDevices), deviceId) == -1 ==>
                activeDevices == old(activeDevices) && currentConsumption == old(currentConsumption)
      ensures old(Consistent()) ==> Consistent()
    {
      ghost var before, total := activeDevices, currentConsumption;
      var deviceIndex := FirstIndex(activeDevices, deviceId);
      if deviceIndex != -1 {
        currentConsumption := currentConsumption - activeDevices[deviceIndex].currentUsage;
        activeDevices := activeDevices[..deviceIndex] + activeDevices[deviceIndex + 1..];
        RedistributePower();
      }
      assert (activeDevices, currentConsumption) == Removed(before, total, deviceId);
      if total == Sum(before) {
        RemovedKeepsSum(before, total, deviceId);
      }
    }

    method UpdateDevice(deviceId: string, newConsumption: int)
      modifies this
      ensures (activeDevices, currentConsumption) ==
              Updated(old(activeDevices), old(currentConsumption), deviceId, newConsumption)
      ensures old(currentConsumption) <= SafeCapacity ==> currentConsumption <= SafeCapacity
      ensures old(Consistent()) && Accepted(old(activeDevices), old(currentConsumption), deviceId, newConsumption) ==>
                Consistent()
    {
      ghost var before, total := activeDevices, currentConsumption;
      var index := FirstIndex(activeDevices, deviceId);
      if index != -1 {
        var device := activeDevices[index];
        var adjustment := newConsumption - device.currentUsage;
        if currentConsumption + adjustment <= SafeCapacity {
          currentConsumption := currentConsumption + adjustment;
          activeDevices := activeDevices[index := device.(currentUsage := newConsumption)];
        } else {
          activeDevices := activeDevices[index := device.(currentUsage := device.maxAllowed)];
        }
        RedistributePower();
      }
      assert (activeDevices, currentConsumption) == Updated(before, total, deviceId, newConsumption);
      if total == Sum(before) && Accepted(before, total, deviceId, newConsumption) {
        UpdatedAcceptKeepsSum(before, total, deviceId, newConsumption);
      }
    }

    method RedistributePower()
      modifies this
      ensures (activeDevices, currentConsumption) ==
              Redistributed(old(activeDevices), old(currentConsumption))
    {
      ghost var before, total := activeDevices, currentConsumption;
      activeDevices := SortByTimestamp(activeDevices);
      TopUpInOrder();
      RedistributedPointwise(before, total, activeDevices);
    }

    /** The forEach of redistributePower: one forward pass over the devices in
        their current order, topping each one up while capacity is spare. */
    method TopUpInOrder()
      modifies this
      ensures |activeDevices| == |old(activeDevices)|
      ensures forall k :: 0 <= k < |activeDevices| ==>
                activeDevices[k] == ToppedUp(old(activeDevices), SafeCapacity - old(currentConsumption), k)
      ensures currentConsumption ==
                SafeCapacity - SpareBefore(old(activeDevices), SafeCapacity - old(currentConsumption), |activeDevices|)
    {
      ghost var devices, spare := activeDevices, SafeCapacity - currentConsumption;
      var remainingCapacity := SafeCapacity - currentConsumption;
      var i := 0;
      while i < |activeDevices|
        invariant 0 <= i <= |activeDevices| == |devices|
        invariant forall k :: 0 <= k < i ==> activeDevices[k] == ToppedUp(devices, spare, k)
        invariant forall k :: i <= k < |devices| ==> activeDevices[k] == devices[k]
        invariant remainingCapacity == SpareBefore(devices, spare, i)
        invariant currentConsumption == SafeCapacity - remainingCapacity
      {
        var device := activeDevices[i];
        PassStep(devices, spare, i);
        if device.currentUsage < DeviceMax && remainingCapacity > 0 {
          var additionalPower := Min(DeviceMax - device.currentUsage, remainingCapacity);
          activeDevices := activeDevices[i := device.(currentUsage := device.currentUsage + additionalPower)];
          currentConsumption := currentConsumption + additionalPower;
          remainingCapacity := remainingCapacity - additionalPower;
        }
        i := i + 1;
      }
    }
  }
}

/** Concrete runs of the allocator. */
module Scenarios {
  import opened PowerDistribution

  const A40 := Device("A", 0, 40, 40)
  const B40 := Device("B", 1, 40, 40)
  const C12 := Device("C", 2, 12, 12)

  lemma {:induction false} AddFirst()
    ensures Added([], 0, "A", 0) == ([A40], 40)
  {
    assert [] + [A40] == [A40];
    RedistributedSettled([A40], 40);
  }

  lemma {:induction false} AddSecond()
    ensures Added([A40], 40, "B", 1) == ([A40, B40], 80)
  {
    assert [A40] + [B40] == [A40, B40];
    RedistributedSettled([A40, B40], 80);
  }

  lemma {:induction false} AddThird()
    ensures Added([A40, B40], 80, "C", 2) == ([A40, B40, C12], 92)
  {
    assert Grant(80) == 12;
    assert [A40, B40] + [C12] == [A40, B40, C12];
    RedistributedSettled([A40, B40, C12], 92);
  }

  /** The 20 units A gives up go straight back to A, the earliest device below DeviceMax. */
  lemma {:induction false} UpdateRefillsA()
    ensures Updated([A40, B40, C12], 92, "A", 20) == ([A40, B40, C12], 92)
  {
    var a20 := A40.(currentUsage := 20);
    var ds := [a20, B40, C12];
    assert FirstIndex([A40, B40, C12], "A") == 0;
    assert [A40, B40, C12][0 := a20] == ds;
    SortOfSorted(ds);
    assert SpareBefore(ds, 20, 1) == 0;
    SpareShrinks(ds, 20, 1, 2);
    SpareShrinks(ds, 20, 1, 3);
    assert TopUp(ds, 20).0 == [A40, B40, C12];
  }

  /** When B leaves, C, the only device below DeviceMax, takes 28 of the 40
      freed units; both devices are then full and 12 units stay spare. */
  lemma {:induction false} RemoveFillsC()
    ensures Removed([A40, B40, C12], 92, "B") == ([A40, C12.(currentUsage := 40)], 80)
  {
    var ds := [A40, C12];
    assert FirstIndex([A40, B40, C12], "B") == 1;
    assert [A40, B40, C12][..1] + [A40, B40, C12][2..] == ds;
    SortOfSorted(ds);
    assert SpareBefore(ds, 40, 1) == 40;
    assert SpareBefore(ds, 40, 2) == 12;
    assert ToppedUp(ds, 40, 0) == A40;
    assert ToppedUp(ds, 40, 1) == C12.(currentUsage := 40);
    assert TopUp(ds, 40).0 == [A40, C12.(currentUsage := 40)];
  }

  /** Devices A, B and C connect in this order: A and B get DeviceMax, C the
      12 units left, and the capacity is used up. */
  method ThreeDevices() returns (allocator: PowerAllocator)
    ensures fresh(allocator)
    ensures allocator.activeDevices == [A40, B40, C12]
    ensures allocator.currentConsumption == 92
  {
    allocator := new PowerAllocator();
    allocator.AddDevice("A", 0);
    AddFirst();
    assert (allocator.activeDevices, allocator.currentConsumption) == ([A40], 40);
    allocator.AddDevice("B", 1);
    AddSecond();
    assert (allocator.activeDevices, allocator.currentConsumption) == ([A40, B40], 80);
    allocator.AddDevice("C", 2);
    AddThird();
  }

  /** The example driver: A connects, B, then C; A drops to 20 and is topped
      back up to 40 (not C); B leaves and C is topped up to 40. Both devices
      end at DeviceMax and 12 units stay spare. */
  method ExampleUsage() returns (devices: seq<Device>, total: int)
    ensures devices == [Device("A", 0, 40, 40), Device("C", 2, 40, 12)]
    ensures total == 80
  {
    var allocator := ThreeDevices();
    allocator.UpdateDevice("A", 20);
    UpdateRefillsA();
    assert (allocator.activeDevices, allocator.currentConsumption) == ([A40, B40, C12], 92);
    allocator.RemoveDevice("B");
    RemoveFillsC();
    devices, total := allocator.activeDevices, allocator.currentConsumption;
  }

  const D0 := Device("D", 3, 0, 0)
  const C22 := Device("C", 2, 22, 12)

  /** A device that connects when the capacity is used up is granted nothing. */
  lemma {:induction false} AddWhenFull()
    ensures Added([A40, B40, C12], 92, "D", 3) == ([A40, B40, C12, D0], 92)
  {
    assert Grant(92) == 0;
    assert [A40, B40, C12] + [D0] == [A40, B40, C12, D0];
    RedistributedSettled([A40, B40, C12, D0], 92);
  }

  /** A negative consumption is accepted; the pass then hands the freed 10
      units to C and leaves D below zero. */
  lemma {:induction false} UpdateToNegative()
    ensures Updated([A40, B40, C12, D0], 92, "D", -10) == ([A40, B40, C22, D0.(currentUsage := -10)], 92)
  {
    var d := D0.(currentUsage := -10);
    var ds := [A40, B40, C12, d];
    FirstIndexAt([A40, B40, C12, D0], "D", 3);
    assert [A40, B40, C12, D0][3 := d] == ds;
    SortOfSorted(ds);
    assert SpareBefore(ds, 10, 2) == 10;
    assert SpareBefore(ds, 10, 3) == 0;
    assert SpareBefore(ds, 10, 4) == 0;
    assert TopUp(ds, 10).0 == [A40, B40, C22, d];
  }

  /** Removing the device with negative usage raises the tracked total past SafeCapacity. */
  lemma {:induction false} RemoveNegative()
    ensures Removed([A40, B40, C22, D0.(currentUsage := -10)], 92, "D") == ([A40, B40, C22], 102)
  {
    var ds := [A40, B40, C22, D0.(currentUsage := -10)];
    FirstIndexAt(ds, "D", 3);
    assert ds[..3] + ds[4..] == [A40, B40, C22];
    RedistributedSettled([A40, B40, C22], 102);
  }

  /** removeDevice does not keep the tracked total within SafeCapacity when the
      removed record has a negative usage, even though the tracked total equals
      the real total throughout. */
  method RemovalCanExceedSafeCapacity() returns (devices: seq<Device>, total: int)
    ensures SafeCapacity < total && total == 102
    ensures total == Sum(devices)
  {
    var allocator := ThreeDevices();
    allocator.AddDevice("D", 3);
    AddWhenFull();
    assert (allocator.activeDevices, allocator.currentConsumption) == ([A40, B40, C12, D0], 92);
    allocator.UpdateDevice("D", -10);
    UpdateToNegative();
    assert (allocator.activeDevices, allocator.currentConsumption) == ([A40, B40, C22, D0.(currentUsage := -10)], 92);
    allocator.RemoveDevice("D");
    RemoveNegative();
    devices, total := allocator.activeDevices, allocator.currentConsumption;
    assert devices == [A40, B40, C22];
    assert Sum([C22]) == 22 by { assert [C22][1..] == []; }
    assert Sum([B40, C22]) == 62 by { assert [B40, C22][1..] == [C22]; }
    assert Sum(devices) == 102 by { assert devices[1..] == [B40, C22]; }
  }

  /** Above SafeCapacity the newcomer's grant is negative: E starts at -10. */
  lemma {:induction false} AddAboveSafeGrantsNegative()
    ensures Added([A40, B40, C22], 102, "E", 4) == ([A40, B40, C22, Device("E", 4, -10, -10)], 92)
  {
    var ds := [A40, B40, C22, Device("E", 4, -10, -10)];
    assert Grant(102) == -10;
    assert [A40, B40, C22] + [Device("E", 4, -10, -10)] == ds;
    RedistributedSettled(ds, 92);
  }

  const C24 := Device("C", 2, 24, 12)

  /** A rejected update resets C from 40 to its maxAllowed of 12 but keeps the
      tracked total of 80, 28 above the real total; the pass then grants the
      12 units the tracked total leaves spare. */
  lemma {:induction false} RejectResetsToMaxAllowed()
    ensures Updated([A40, C12.(currentUsage := 40)], 80, "C", 100) == ([A40, C24], 92)
  {
    var ds := [A40, C12];
    assert FirstIndex([A40, C12.(currentUsage := 40)], "C") == 1;
    assert [A40, C12.(currentUsage := 40)][1 := C12] == ds;
    SortOfSorted(ds);
    assert SpareBefore(ds, 12, 1) == 12;
    assert SpareBefore(ds, 12, 2) == 0;
    assert ToppedUp(ds, 12, 0) == A40;
    assert ToppedUp(ds, 12, 1) == C24;
    assert TopUp(ds, 12).0 == [A40, C24];
  }

  /** After a rejected update the tracked total no longer equals the real
      total: the allocator believes the capacity is used up while 28 units are
      free. */
  method RejectedUpdateDrifts() returns (devices: seq<Device>, total: int)
    ensures total == 92 && Sum(devices) == 64
  {
    var allocator := ThreeDevices();
    allocator.RemoveDevice("B");
    RemoveFillsC();
    assert (allocator.activeDevices, allocator.currentConsumption) == ([A40, C12.(currentUsage := 40)], 80);
    allocator.UpdateDevice("C", 100);
    RejectResetsToMaxAllowed();
    devices, total := allocator.activeDevices, allocator.currentConsumption;
    assert devices == [A40, C24];
    assert Sum([C24]) == 24 by { assert [C24][1..] == []; }
    assert Sum(devices) == 64 by { assert devices[1..] == [C24]; }
  }
}
