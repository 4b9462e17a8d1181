# Power allocator

A model of a small power allocator. A budget of `SAFE_CAPACITY` = 92 units is
shared among connected devices, and no device is topped up past
`DEVICE_MAX` = 40. The allocator's state is a tracked total
(`currentConsumption`) and a list of device records (`activeDevices`). Each
record holds an id, a connection timestamp, a current usage and the
`maxAllowed` it was first granted. Four operations change the state:

- `addDevice` grants a newcomer `min(SAFE_CAPACITY - total, DEVICE_MAX)` and appends its record.
- `removeDevice` splices out the first record with the id.
- `updateDevice` accepts a new usage when the tracked total stays within `SAFE_CAPACITY`. Otherwise it resets the usage to `maxAllowed`.
- `redistributePower` sorts the list by timestamp. It then makes one FIFO pass that tops each device below `DEVICE_MAX` up with the capacity that is still spare.

Everything is in `power_distribution.dfy`, which has two modules.

- **`PowerDistribution`** holds the model.
  - The class `PowerAllocator` has the two global variables as fields and one method per operation. The `forEach` pass is a `while` loop, `TopUpInOrder`.
  - Each method is proved equal to a pure function of the old state: `Added`, `Removed`, `Updated` or `Redistributed`.
  - Lemmas about those functions state what the allocator promises: the bounds, top-up only, the one-pass fixed point, idempotence, FIFO order, the stable sort, and how the tracked total relates to the real total.
- **`Scenarios`** replays the example driver and a few other concrete runs.

The model follows the code as written.

- Ids may be duplicated. The lookups act on the first match.
- `updateDevice` does not check the requested consumption. The model therefore allows negative values and values above `DEVICE_MAX`.
- The rejection branch leaves the tracked total alone. The tracked total can then differ from the real total (`UpdatedRejectDrifts`, `Scenarios.RejectedUpdateDrifts`). Adding, removing, an accepted update and the pass each carry the gap between the two totals over unchanged (`AddedKeepsSum`, `RemovedKeepsSum`, `UpdatedAcceptKeepsSum`, `RedistributedKeepsSum`), so the gap changes only on a rejected update.
- `addDevice` does not clamp its grant. The grant is negative when the tracked total is above `SAFE_CAPACITY` (`Grant`, `Scenarios.AddAboveSafeGrantsNegative`).

Tracing the code gives these results:

- **The comment at `powerDistribution.js:87` is wrong.** After A drops to 20, the pass refills A, the earliest device below the cap, and not C (`Scenarios.UpdateRefillsA`).
- **The total is 92 after line 87 and falls to 80 when B leaves.** When B leaves, C takes only 28 of the 40 freed units. Both devices are then at `DEVICE_MAX` and 12 units stay spare (`Scenarios.RemoveFillsC`, `Scenarios.ExampleUsage`). The comments at lines 86-88 give no total.
- **`removeDevice` can push the tracked total above `SAFE_CAPACITY`.** This happens when the removed record has a negative usage, which an accepted update can store. Example run: add A, B, C and D (D is granted 0), update D to -10, then remove D. The tracked total ends at 102 and still equals the real total (`Scenarios.RemovalCanExceedSafeCapacity`). The bound for removal is therefore proved only when the removed record's usage is not negative (`RemovedKeepsBound`).

## Model

| member | source | states |
|---|---|---|
| PowerDistribution.FirstIndex | powerDistribution.js:35 | the position of the first record with the id, -1 exactly when no record carries it, and no earlier record carries it |
| PowerDistribution.FirstIndexAt | powerDistribution.js:50 | a record with the id and no earlier one with it is the record the lookup finds |
| PowerDistribution.SortByTimestamp | powerDistribution.js:72 | the in-place sort by ascending timestamp, as a stable insertion sort: it keeps the length; what it promises beyond that is stated by the four lemmas below |
| PowerDistribution.SortPermutes | powerDistribution.js:71-72 | sorting by timestamp keeps exactly the same records (multiset) and the same real total |
| PowerDistribution.SortSorted | powerDistribution.js:72 | the sorted list is in ascending timestamp order |
| PowerDistribution.SortStable | powerDistribution.js:72 | the sort is stable: records with equal timestamps keep their relative order |
| PowerDistribution.SortOfSorted | powerDistribution.js:72 | a list already in timestamp order is left unchanged by the sort |
| PowerDistribution.Extra | powerDistribution.js:74-75 | the grant of one pass step: positive exactly when the device is below DEVICE_MAX and capacity is spare, never more than the spare capacity, never past DEVICE_MAX, and it either fills the device or uses up the spare |
| PowerDistribution.SpareBefore | powerDistribution.js:73-80 | the spare capacity during the pass never exceeds the starting capacity, stays non-negative when it starts non-negative, and is untouched when none is spare |
| PowerDistribution.ToppedUp | powerDistribution.js:74-76 | each device leaves the pass with id, timestamp and maxAllowed unchanged and its usage never lowered and raised only from below DEVICE_MAX to at most DEVICE_MAX |
| PowerDistribution.TopUp | powerDistribution.js:73-80 | the whole forEach pass: device k as the pass leaves it, and the capacity still spare afterwards, which never exceeds the starting capacity and stays non-negative when that is non-negative |
| PowerDistribution.PassStep | powerDistribution.js:74-78 | one step of the pass: a device below DEVICE_MAX with capacity spare receives min(DEVICE_MAX - usage, spare), which leaves the spare; any other device and the spare are unchanged |
| PowerDistribution.TopUpSaturates | powerDistribution.js:73-80 | if capacity is still spare after the pass, every device is at DEVICE_MAX or above |
| PowerDistribution.TopUpFifo | powerDistribution.js:73-79 | a device that gains in the pass comes after devices that all end at DEVICE_MAX or above |
| PowerDistribution.TopUpSum | powerDistribution.js:76-78 | the pass adds to the real total exactly what it takes from the spare capacity |
| PowerDistribution.TopUpUnchanged | powerDistribution.js:74 | with no spare capacity or every device at DEVICE_MAX, the pass changes nothing |
| PowerDistribution.TopUpFixedPoint | powerDistribution.js:73-80 | a second pass right after the first changes nothing |
| PowerDistribution.Redistributed | powerDistribution.js:68-81 | the list keeps its length; the tracked total never falls and stays within SAFE_CAPACITY when it started within it |
| PowerDistribution.RedistributedRaises | powerDistribution.js:71-78 | each record of the sorted list comes out with the same id, timestamp and maxAllowed and is only raised, from below DEVICE_MAX and to at most DEVICE_MAX |
| PowerDistribution.RedistributedSorted | powerDistribution.js:71-72 | afterwards the list is in ascending timestamp order |
| PowerDistribution.RedistributedSaturates | powerDistribution.js:69-80 | afterwards the tracked total is at or above SAFE_CAPACITY, so exactly at it when the total started within it (Redistributed keeps such a total within SAFE_CAPACITY), or else every device is at DEVICE_MAX or above |
| PowerDistribution.RedistributedKeepsSum | powerDistribution.js:76-77 | the tracked total rises by exactly the sum of the grants, so the gap between the tracked and the real total is kept |
| PowerDistribution.RedistributedIdempotent | powerDistribution.js:68-81 | redistributing twice in a row gives the same list and total as once |
| PowerDistribution.RedistributedSettled | powerDistribution.js:68-81 | a list already in timestamp order with no spare capacity or no device below DEVICE_MAX is left exactly as it is |
| PowerDistribution.RedistributedFifo | powerDistribution.js:71-79 | if the device at position j gains, every device at an earlier position i < j ends at DEVICE_MAX or above |
| PowerDistribution.Grant | powerDistribution.js:16-17 | the grant is at most DEVICE_MAX and keeps the total within SAFE_CAPACITY; it is DEVICE_MAX or exactly the remaining capacity; it is non-negative when the total is within SAFE_CAPACITY and negative (the remaining capacity) when the total is above it |
| PowerDistribution.Added | powerDistribution.js:15-28 | adding one device lengthens the list by one, raises the tracked total by at least the grant, and keeps it within SAFE_CAPACITY when it started within it; the exact rise (the grant plus what the pass grants) is AddedKeepsSum; what happens to each record is AddedRaises and AddedHoldsNewcomer |
| PowerDistribution.AddedHoldsNewcomer | powerDistribution.js:18-25 | the newcomer's record, with usage = maxAllowed = grant, is in the list afterwards, raised at most |
| PowerDistribution.AddedRaises | powerDistribution.js:18-27 | every old record and the newcomer come through in timestamp order with id, timestamp and maxAllowed kept and usage only raised: nothing else changes |
| PowerDistribution.AddedKeepsSum | powerDistribution.js:18-27 | for any starting gap, the tracked total rises by exactly as much as the real total (the grant plus what the pass grants), so the tracked total minus the real total is unchanged |
| PowerDistribution.Removed | powerDistribution.js:34-42 | an absent id changes nothing; a present id shortens the list by one and the total ends at least at the old total less that record's usage; the exact change (less that usage, plus what the pass grants) is RemovedKeepsSum |
| PowerDistribution.SpliceOut | powerDistribution.js:39 | splicing out one position takes exactly that record out of the list (multiset) |
| PowerDistribution.RemovedDropsFirst | powerDistribution.js:35-40 | the records that removal hands to the pass are exactly the old ones less the first record with the id |
| PowerDistribution.RemovedRaises | powerDistribution.js:39-40 | after the splice, each remaining record in timestamp order is only raised by the pass |
| PowerDistribution.RemovedKeepsBound | powerDistribution.js:37-40 | removal keeps the tracked total within SAFE_CAPACITY when the removed record's usage is not negative |
| PowerDistribution.RemovedKeepsSum | powerDistribution.js:37-40 | for any starting gap, the tracked total falls by exactly as much as the real total (the removed usage, less what the pass grants), so the tracked total minus the real total is unchanged |
| PowerDistribution.Updated | powerDistribution.js:49-63 | an absent id changes nothing; the list keeps its length; the tracked total stays within SAFE_CAPACITY when it started within it; what happens to each record is UpdatedRaises |
| PowerDistribution.Accepted | powerDistribution.js:54 | the branch condition of updateDevice: an absent id is never rejected; lowering a usage is always accepted while the total is within SAFE_CAPACITY; raising or keeping it is always rejected once the total is above SAFE_CAPACITY |
| PowerDistribution.UpdatedRaises | powerDistribution.js:53-61 | an update changes only the first record with the id, whose usage becomes newConsumption when accepted and its maxAllowed otherwise, with its other fields kept; every record then comes through the pass raised at most, and the tracked total ends at least at the accepted total or the unchanged one |
| PowerDistribution.UpdatedAcceptKeepsSum | powerDistribution.js:53-56 | for any starting gap, an accepted update moves the tracked total by exactly as much as the real total (the change of usage plus what the pass grants), so the tracked total minus the real total is unchanged |
| PowerDistribution.UpdatedRejectDrifts | powerDistribution.js:57-60 | a rejected update widens the gap between the tracked and the real total by the record's old usage less its maxAllowed |
| PowerDistribution.PowerAllocator.constructor | powerDistribution.js:7-8 | the allocator starts with a total of 0 and no devices, and the totals agree |
| PowerDistribution.PowerAllocator.AddDevice | powerDistribution.js:15-28 | the new state is Added of the old; the bound is kept and matching totals still match |
| PowerDistribution.PowerAllocator.RemoveDevice | powerDistribution.js:34-42 | the new state is Removed of the old; an absent id leaves the state untouched; matching totals still match |
| PowerDistribution.PowerAllocator.UpdateDevice | powerDistribution.js:49-63 | the new state is Updated of the old; the bound is kept; matching totals still match after an accepted update |
| PowerDistribution.PowerAllocator.RedistributePower | powerDistribution.js:68-81 | the new state is Redistributed of the old |
| PowerDistribution.PowerAllocator.TopUpInOrder | powerDistribution.js:73-80 | the in-place loop leaves each device as the pass defines it, and the tracked total is SAFE_CAPACITY less the capacity still spare |
| Scenarios.AddFirst | powerDistribution.js:84 | A connects to an empty allocator and gets 40 |
| Scenarios.AddSecond | powerDistribution.js:85 | B gets 40 and the total is 80 |
| Scenarios.AddThird | powerDistribution.js:86 | C gets the remaining 12 and the total is 92 |
| Scenarios.UpdateRefillsA | powerDistribution.js:87 | after A drops to 20, the pass refills A to 40; C stays at 12 |
| Scenarios.RemoveFillsC | powerDistribution.js:88 | after B leaves, C is topped up to 40 and the total is 80 |
| Scenarios.ThreeDevices | powerDistribution.js:84-86 | after the first three calls the allocator holds A=40, B=40, C=12 with total 92 |
| Scenarios.ExampleUsage | powerDistribution.js:84-88 | the driver ends with A=40 and C=40 in timestamp order and a tracked total of 80 |
| Scenarios.AddWhenFull | powerDistribution.js:15-27 | a device that connects when the capacity is used up is granted 0 |
| Scenarios.UpdateToNegative | powerDistribution.js:53-61 | an update to -10 is accepted and the freed 10 units go to C |
| Scenarios.RemoveNegative | powerDistribution.js:37-40 | removing the record with usage -10 raises the tracked total to 102 |
| Scenarios.RemovalCanExceedSafeCapacity | powerDistribution.js:34-42 | a run of the operations that ends with a tracked total of 102, above SAFE_CAPACITY, that still equals the real total |
| Scenarios.AddAboveSafeGrantsNegative | powerDistribution.js:16-18 | with the total at 102, a newcomer is granted -10 |
| Scenarios.RejectResetsToMaxAllowed | powerDistribution.js:57-61 | a rejected update to 100 resets C from 40 to its maxAllowed of 12, keeps the tracked total at 80, and the pass then grants C 12 units |
| Scenarios.RejectedUpdateDrifts | powerDistribution.js:57-61 | a run of the operations that ends with a tracked total of 92 while the real total is 64 |

## Left out

- `MAX_CAPACITY` (powerDistribution.js:2) is declared but never read, so it is not modelled.
- The `console.log` of the device list (powerDistribution.js:91) is output only.
- The module-level driver (powerDistribution.js:84-88) is not top-level code here. It is replayed as `Scenarios.ExampleUsage`.
- JavaScript `number` semantics are not modelled. Floating point, `NaN` and non-integer usages or timestamps are out; every value is an unbounded `int`. With integer timestamps, the comparator `a.timestamp - b.timestamp` is the ascending order on timestamps.
- `Array.prototype.sort`, `find` and `findIndex` are library calls. They are modelled by what they return: `SortByTimestamp`, a stable insertion sort (the standard requires stability), and `FirstIndex`. Their internal steps are not modelled.
- Records are values. `find` hands back a reference that `updateDevice` writes through; the model replaces the element at the found position instead. Nothing else holds that reference, so the effect is the same.
- PowerDistribution.RemovedKeepsBound: requires the removed record's usage to be non-negative, because an accepted update can store a negative usage and removing that record lifts the tracked total above SAFE_CAPACITY (see `Scenarios.RemovalCanExceedSafeCapacity`).
