/**
  The storage of a queue in TCPv3/FreeRTOS/queue.c: a ring of bytes with a write and a read
  pointer, here offsets into an array, that is used as a bounded deque of items.
 */
module QueueStorage {
  import opened Octets
  import Arithmetic

  /** Slot i behind the given one in a ring of n slots. */
  function SlotBehind(n: nat, first: nat, i: nat): (slot: nat)
    requires first < n && i <= n
    ensures slot < n
  {
    if first + i < n then first + i else first + i - n
  }

  /** SlotBehind is addition modulo n, and different distances below n lead to different slots. */
  lemma SlotBehindIsModular(n: nat, first: nat, i: nat)
    requires first < n && i <= n
    ensures SlotBehind(n, first, i) == (first + i) % n
  {
    if first + i < n {
      Arithmetic.SmallMod(first + i, n);
    } else if first + i < 2 * n {
      Arithmetic.DivModUnique(first + i, n, 1, first + i - n);
    }
  }

  /** Counting from the slot in front, everything is one further behind. */
  lemma StepBack(n: nat, first: nat, i: nat)
    requires first < n && i < n
    ensures SlotBehind(n, SlotBehind(n, first, n - 1), i + 1) == SlotBehind(n, first, i)
  {
  }

  lemma SlotInFront(n: nat, slot: nat)
    requires slot < n
    ensures SlotBehind(n, slot, n - 1) == if slot == 0 then n - 1 else slot - 1
  {
  }

  lemma SlotsApart(a: nat, b: nat, size: nat)
    requires a < b
    ensures a * size + size <= b * size
  {
    assert b * size == a * size + (b - a) * size;
    assert (b - a) * size >= size by {
      if size > 0 {
        Arithmetic.MulGrows(size, b - a);
      }
    }
  }

  /** The given number of items, read off the slots from the first one on. */
  ghost function Items(slots: seq<seq<byte>>, first: nat, count: nat): (items: seq<seq<byte>>)
    requires first < |slots| && count <= |slots|
    ensures |items| == count
  {
    seq(count, i requires 0 <= i < count => slots[SlotBehind(|slots|, first, i)])
  }

  lemma ItemsAppended(slots: seq<seq<byte>>, first: nat, count: nat, item: seq<byte>)
    requires first < |slots| && count < |slots|
    ensures Items(slots[SlotBehind(|slots|, first, count) := item], first, count + 1) == Items(slots, first, count) + [item]
  {
  }

  lemma ItemsPrepended(slots: seq<seq<byte>>, first: nat, count: nat, item: seq<byte>)
    requires first < |slots| && count < |slots|
    ensures var slot := SlotBehind(|slots|, first, |slots| - 1);
            && Items(slots[slot := item], slot, count + 1) == [item] + Items(slots, first, count)
            && SlotBehind(|slots|, slot, count + 1) == SlotBehind(|slots|, first, count)
  {
    StepBack(|slots|, first, count);
    var slot := SlotBehind(|slots|, first, |slots| - 1);
    var after := Items(slots[slot := item], slot, count + 1);
    forall i | 0 <= i < count ensures after[i + 1] == Items(slots, first, count)[i] {
      StepBack(|slots|, first, i);
    }
  }

  lemma ItemsDropped(slots: seq<seq<byte>>, first: nat, count: nat)
    requires first < |slots| && 0 < count <= |slots|
    ensures var next := SlotBehind(|slots|, first, 1);
            && Items(slots, first, count) == [slots[first]] + Items(slots, next, count - 1)
            && SlotBehind(|slots|, next, count - 1) == SlotBehind(|slots|, first, count)
            && SlotBehind(|slots|, next, |slots| - 1) == first
  {
  }

  class Queue {
    const length: nat
    const itemSize: nat
    const storage: array<byte>
    var writeTo: nat
    var readFrom: int
    var messagesWaiting: nat
    ghost var first: nat  // the slot of the item that is received next

    ghost predicate Valid()
      reads this
    {
      && length > 0
      && storage.Length == length * itemSize + 1
      && messagesWaiting <= length
      && first < length
      && readFrom == SlotBehind(length, first, length - 1) * itemSize
      && writeTo == SlotBehind(length, first, messagesWaiting) * itemSize
    }

    ghost function Slot(i: nat): (item: seq<byte>)
      requires i < length && storage.Length == length * itemSize + 1
      reads storage
      ensures |item| == itemSize
    {
      SlotsApart(i, length, itemSize);
      storage[i * itemSize..i * itemSize + itemSize]
    }

    ghost function Slots(): (slots: seq<seq<byte>>)
      requires storage.Length == length * itemSize + 1
      reads storage
      ensures |slots| == length
    {
      seq(length, i requires 0 <= i < length && storage.Length == length * itemSize + 1 reads storage => Slot(i))
    }

    /** The items waiting, the next one to be received first. */
    ghost function Contents(): (items: seq<seq<byte>>)
      requires Valid()
      reads this, storage
      ensures |items| == messagesWaiting <= length
    {
      Items(Slots(), first, messagesWaiting)
    }

    /** xQueueGenericCreate */
    constructor (uxQueueLength: nat, uxItemSize: nat)
      requires uxQueueLength > 0
      ensures Valid() && Contents() == []
      ensures length == uxQueueLength && itemSize == uxItemSize && fresh(storage)
    {
      length, itemSize := uxQueueLength, uxItemSize;
      storage := new byte[uxQueueLength * uxItemSize + 1];
      messagesWaiting := 0;
      writeTo := 0;
      readFrom := (uxQueueLength - 1) * uxItemSize;
      first := 0;
    }

    /** memcpy of one item into a slot. */
    method Store(at: nat, ghost slot: nat, item: seq<byte>)
      requires storage.Length == length * itemSize + 1 && slot < length && at == slot * itemSize && |item| == itemSize
      modifies storage
      ensures Slots() == old(Slots())[slot := item]
    {
      ghost var before := Slots();
      StoreBytes(at, slot, item);
      assert forall j :: 0 <= j < length && j != slot ==> Slots()[j] == before[j];
    }

    method StoreBytes(at: nat, ghost slot: nat, item: seq<byte>)
      requires storage.Length == length * itemSize + 1 && slot < length && at == slot * itemSize && |item| == itemSize
      modifies storage
      ensures Slot(slot) == item
      ensures forall j :: 0 <= j < length && j != slot ==> Slot(j) == old(Slot(j))
    {
      SlotsApart(slot, length, itemSize);
      forall i | 0 <= i < itemSize {
        storage[at + i] := item[i];
      }
      forall j | 0 <= j < length && j != slot ensures Slot(j) == old(Slot(j)) {
        SlotsApart(j, length, itemSize);
        if j < slot {
          SlotsApart(j, slot, itemSize);
        } else {
          SlotsApart(slot, j, itemSize);
        }
      }
    }

    /** The offset behind that of a slot, wrapped at the end of the storage, is that of the next slot. */
    lemma NextOffset(slot: nat)
      requires slot < length && itemSize > 0
      ensures slot * itemSize + itemSize >= length * itemSize <==> slot + 1 == length
      ensures slot + 1 < length ==> slot * itemSize + itemSize == (slot + 1) * itemSize
    {
      SlotsApart(slot, length, itemSize);
      if slot + 1 < length {
        SlotsApart(slot + 1, length, itemSize);
      }
    }

    /** The offset in front of that of a slot, wrapped likewise. */
    lemma PreviousOffset(slot: nat)
      requires slot < length && itemSize > 0
      ensures slot * itemSize - itemSize < 0 <==> slot == 0
      ensures slot * itemSize - itemSize == (slot - 1) * itemSize
      ensures length * itemSize - itemSize == (length - 1) * itemSize
    {
      if slot > 0 {
        SlotsApart(0, slot, itemSize);
      }
    }

    /** prvCopyDataToQueue; the caller has seen that there is room. */
    method CopyDataToQueue(item: seq<byte>, toFront: bool)
      requires Valid() && messagesWaiting < length && |item| == itemSize
      modifies this, storage
      ensures Valid() && messagesWaiting == old(messagesWaiting) + 1
      ensures Contents() == if toFront then [item] + old(Contents()) else old(Contents()) + [item]
    {
      if itemSize == 0 {
        ghost var n := messagesWaiting;
        AllItemsAreEmpty();
        messagesWaiting := messagesWaiting + 1;
        AllItemsAreEmpty();
        assert item == [];
        assert seq<seq<byte>>(n + 1, _ => []) == [item] + seq<seq<byte>>(n, _ => []) == seq<seq<byte>>(n, _ => []) + [item];
      } else if !toFront {
        CopyToBack(item);
      } else {
        CopyToFront(item);
      }
    }

    lemma AllItemsAreEmpty()
      requires Valid() && itemSize == 0
      ensures Contents() == seq(messagesWaiting, _ => [])
    {
      forall i | 0 <= i < messagesWaiting ensures Contents()[i] == [] {
        var slot := SlotBehind(length, first, i);
        assert |Slot(slot)| == 0;
        assert Contents()[i] == Slots()[slot] == Slot(slot);
      }
    }

    method CopyToBack(item: seq<byte>)
      requires Valid() && messagesWaiting < length && |item| == itemSize > 0
      modifies `writeTo, `messagesWaiting, storage
      ensures Valid() && messagesWaiting == old(messagesWaiting) + 1
      ensures Contents() == old(Contents()) + [item]
    {
      hide Slots, Items;
      ItemsAppended(Slots(), first, messagesWaiting, item);
      ghost var slot := SlotBehind(length, first, messagesWaiting);
      Store(writeTo, slot, item);
      NextOffset(slot);
      writeTo := writeTo + itemSize;
      if writeTo >= length * itemSize {
        writeTo := 0;
      }
      messagesWaiting := messagesWaiting + 1;
    }

    method CopyToFront(item: seq<byte>)
      requires Valid() && messagesWaiting < length && |item| == itemSize > 0
      modifies `readFrom, `first, `messagesWaiting, storage
      ensures Valid() && messagesWaiting == old(messagesWaiting) + 1
      ensures Contents() == [item] + old(Contents())
    {
      hide Slots, Items, SlotBehind;
      ItemsPrepended(Slots(), first, messagesWaiting, item);
      ghost var slot := SlotBehind(length, first, length - 1);
      Store(readFrom, slot, item);
      PreviousOffset(slot);
      readFrom := readFrom - itemSize;
      if readFrom < 0 {
        readFrom := length * itemSize - itemSize;
      }
      SlotInFront(length, slot);
      first := slot;
      messagesWaiting := messagesWaiting + 1;
    }

    /** prvCopyDataFromQueue: the read pointer moves on and the item there is copied out. */
    method CopyDataFromQueue() returns (item: seq<byte>)
      requires Valid()
      modifies `readFrom
      ensures item == Slot(first)
      ensures readFrom == first * itemSize
    {
      ghost var slot := SlotBehind(length, first, length - 1);
      if itemSize > 0 {
        NextOffset(slot);
      }
      readFrom := readFrom + itemSize;
      if readFrom >= length * itemSize {
        readFrom := 0;
      }
      SlotsApart(first, length, itemSize);
      item := storage[readFrom..readFrom + itemSize];
    }

    /** The first critical section of xQueueGenericSend, and of xQueueGenericSendFromISR. */
    method Send(item: seq<byte>, toFront: bool) returns (sent: bool)
      requires Valid() && |item| == itemSize
      modifies this, storage
      ensures Valid()
      ensures sent <==> |old(Contents())| < length
      ensures Contents() == if !sent then old(Contents()) else if toFront then [item] + old(Contents()) else old(Contents()) + [item]
    {
      sent := messagesWaiting < length;
      if sent {
        CopyDataToQueue(item, toFront);
      }
    }

    /** The first critical section of xQueueGenericReceive; a peek puts the read pointer back. */
    method Receive(justPeeking: bool) returns (received: bool, item: seq<byte>)
      requires Valid()
      modifies this
      ensures Valid()
      ensures received <==> old(Contents()) != []
      ensures received ==> item == old(Contents())[0]
      ensures Contents() == if received && !justPeeking then old(Contents())[1..] else old(Contents())
    {
      received, item := messagesWaiting > 0, [];
      if received {
        var original := readFrom;
        item := CopyDataFromQueue();
        ItemsDropped(Slots(), first, messagesWaiting);
        if !justPeeking {
          messagesWaiting := messagesWaiting - 1;
          first := SlotBehind(length, first, 1);
        } else {
          readFrom := original;
        }
      }
    }
  }
}
