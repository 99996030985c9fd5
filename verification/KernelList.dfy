/**
  The linked structure of TCPv3/FreeRTOS/list.c and include/list.h: a circular doubly
  linked list with an end marker, a walking index and a container pointer in each item.
  Every method is proved against its operation on the sequence view in Rings.
 */
module KernelList {
  import opened Rings

  const MAX_DELAY: nat := 0xFFFF_FFFF

  /** xLIST_ITEM; the owner is represented by a number. */
  class ListItem {
    var value: nat
    var next: ListItem?
    var prev: ListItem?
    var owner: nat
    var container: List?

    constructor (value: nat, owner: nat)
      requires value <= MAX_DELAY
      ensures this.value == value && this.owner == owner && container == null
    {
      this.value, this.owner := value, owner;
      next, prev, container := null, null, null;
    }
  }

  function After(n: nat, i: nat): nat {
    if i + 1 == n then 0 else i + 1
  }

  function Before(n: nat, i: nat): int {
    if i == 0 then n - 1 else i - 1
  }

  /** The nodes are distinct and their links run round them in both directions. */
  ghost predicate Circular(nodes: seq<ListItem>)
    reads nodes
  {
    && nodes != [] && Distinct(nodes)
    && (forall i {:trigger nodes[i].next} :: 0 <= i < |nodes| ==> nodes[i].next == nodes[After(|nodes|, i)])
    && (forall i {:trigger nodes[i].prev} :: 0 <= i < |nodes| ==> nodes[i].prev == nodes[Before(|nodes|, i)])
  }

  lemma InsertedIsCircular(nodes: seq<ListItem>, k: nat, item: ListItem)
    requires Distinct(nodes) && k < |nodes| && item !in nodes
    requires item.next == nodes[After(|nodes|, k)] && item.prev == nodes[k]
    requires forall j {:trigger nodes[j].next} :: 0 <= j < |nodes| ==>
      nodes[j].next == if j == k then item else nodes[After(|nodes|, j)]
    requires forall j {:trigger nodes[j].prev} :: 0 <= j < |nodes| ==>
      nodes[j].prev == if j == After(|nodes|, k) then item else nodes[Before(|nodes|, j)]
    ensures Circular(SeqInsert(nodes, k + 1, item))
  {
    var n := |nodes|;
    var linked := SeqInsert(nodes, k + 1, item);
    InsertMembership(nodes, k + 1, item);
    forall i | 0 <= i < n + 1
      ensures linked[i].next == linked[After(n + 1, i)] && linked[i].prev == linked[Before(n + 1, i)]
    {
      if i != k + 1 {
        var j := if i <= k then i else i - 1;
        assert linked[i] == nodes[j];
      }
    }
  }

  lemma DroppedIsCircular(nodes: seq<ListItem>, k: nat)
    requires Distinct(nodes) && 1 <= k < |nodes|
    requires forall j {:trigger nodes[j].next} :: 0 <= j < |nodes| && j != k ==>
      nodes[j].next == nodes[After(|nodes|, if j == k - 1 then k else j)]
    requires forall j {:trigger nodes[j].prev} :: 0 <= j < |nodes| && j != k ==>
      nodes[j].prev == nodes[Before(|nodes|, if j == After(|nodes|, k) then k else j)]
    ensures Circular(SeqDrop(nodes, k))
  {
    var n := |nodes|;
    var linked := SeqDrop(nodes, k);
    DropMembership(nodes, k);
    forall i | 0 <= i < n - 1
      ensures linked[i].next == linked[After(n - 1, i)] && linked[i].prev == linked[Before(n - 1, i)]
    {
      var j := if i < k then i else i + 1;
      assert linked[i] == nodes[j];
    }
  }

  /** Links an item in behind node k: the four pointer writes that both insertions share. */
  method LinkBehind(node: ListItem, item: ListItem, ghost nodes: seq<ListItem>, ghost k: nat)
    requires Circular(nodes) && k < |nodes| && nodes[k] == node && item !in nodes
    modifies nodes`next, nodes`prev, item`next, item`prev
    ensures Circular(SeqInsert(nodes, k + 1, item))
  {
    ghost var n := |nodes|;
    ghost var a := After(n, k);
    assert node.next == nodes[a];
    assert item !in nodes[..];
    item.next := node.next;
    item.prev := node;
    node.next.prev := item;
    node.next := item;
    forall j | 0 <= j < n
      ensures nodes[j].next == if j == k then item else nodes[After(n, j)]
    {
      assert nodes[j] != item;
    }
    forall j | 0 <= j < n
      ensures nodes[j].prev == if j == a then item else nodes[Before(n, j)]
    {
      assert nodes[j] != item;
    }
    InsertedIsCircular(nodes, k, item);
  }

  /** Links node k out: the two pointer writes of vListRemove. */
  method Unlink(item: ListItem, ghost nodes: seq<ListItem>, ghost k: nat)
    requires Circular(nodes) && 1 <= k < |nodes| && nodes[k] == item
    modifies nodes`next, nodes`prev
    ensures Circular(SeqDrop(nodes, k))
    ensures item.prev == nodes[k - 1]
  {
    ghost var n := |nodes|;
    assert item.next == nodes[After(n, k)] && item.prev == nodes[k - 1];
    item.next.prev := item.prev;
    item.prev.next := item.next;
    DroppedIsCircular(nodes, k);
  }

  lemma NodesDiffer(nodes: seq<ListItem>, i: nat, j: nat)
    requires Circular(nodes) && i < |nodes| && 0 < j < |nodes|
    ensures nodes[j] != nodes[0] && (i != j ==> nodes[i] != nodes[j])
  {
  }

  /** xLIST. The end marker is an item of its own, as list.c casts it to one. */
  class List {
    var count: nat
    var index: ListItem
    const end: ListItem
    ghost var nodes: seq<ListItem>  // the marker, then the items from its successor on
    ghost var cursor: nat           // the place of index among the nodes

    ghost predicate Valid()
      reads this, nodes
    {
      && |nodes| == count + 1 && nodes[0] == end
      && Circular(nodes)
      && Members(nodes)
      && end.container == null && end.value == MAX_DELAY
      && cursor <= count && index == nodes[cursor]
    }

    /** All nodes but the marker name this list as their container. */
    ghost predicate Members(nodes: seq<ListItem>)
      reads nodes
    {
      forall i {:trigger nodes[i]} :: 1 <= i < |nodes| ==> nodes[i].container == this && nodes[i].value <= MAX_DELAY
    }

    lemma InsertedMembers(before: seq<ListItem>, pos: nat, item: ListItem)
      requires 1 <= pos <= |before|
      requires Members(before) && item.container == this && item.value <= MAX_DELAY
      ensures var after := SeqInsert(before, pos, item);
              && Members(after) && after[pos] == item
              && (forall i {:trigger before[i]} :: 0 <= i < |before| ==> after[if i < pos then i else i + 1] == before[i])
    {
      var after := SeqInsert(before, pos, item);
      forall i | 1 <= i < |after| ensures after[i].container == this && after[i].value <= MAX_DELAY {
        assert after[i] == if i < pos then before[i] else if i == pos then item else before[i - 1];
      }
    }

    lemma DroppedMembers(before: seq<ListItem>, pos: nat)
      requires 1 <= pos < |before|
      requires forall i {:trigger before[i]} :: 1 <= i < |before| && i != pos ==>
        before[i].container == this && before[i].value <= MAX_DELAY
      ensures var after := SeqDrop(before, pos);
              && Members(after)
              && (forall i {:trigger before[i]} :: 0 <= i < |before| && i != pos ==> after[if i < pos then i else i - 1] == before[i])
    {
      var after := SeqDrop(before, pos);
      forall i | 1 <= i < |after| ensures after[i].container == this && after[i].value <= MAX_DELAY {
        assert after[i] == before[if i < pos then i else i + 1];
      }
    }

    /** The sequence view. */
    ghost function View(): (r: Ring<ListItem>)
      requires Valid()
      reads this, nodes
      ensures r.index <= |r.items| == count
    {
      Ring(nodes[1..], cursor)
    }

    ghost function Keys(): (keys: seq<nat>)
      requires Valid()
      reads this, nodes
      ensures |keys| == count
      ensures forall i :: 0 <= i < count ==> keys[i] == nodes[i + 1].value
    {
      seq(count, i requires 0 <= i < count reads this, nodes requires Valid() => nodes[i + 1].value)
    }

    /** vListInitialise */
    constructor ()
      ensures Valid() && View() == EmptyRing<ListItem>()
      ensures fresh(end)
    {
      var marker := new ListItem(MAX_DELAY, 0);
      end := marker;
      index := marker;
      count, nodes, cursor := 0, [marker], 0;
      new;
      end.next := end;
      end.prev := end;
    }

    /** listLIST_IS_EMPTY */
    method IsEmpty() returns (empty: bool)
      requires Valid()
      ensures empty <==> View().items == []
    {
      empty := count == 0;
    }

    /** listGET_ITEM_VALUE_OF_HEAD_ENTRY: on an empty list this reads the marker. */
    method HeadValue() returns (value: nat)
      requires Valid()
      ensures value == if View().items == [] then MAX_DELAY else View().items[0].value
    {
      var head := end.next;
      assert nodes[0].next == nodes[After(|nodes|, 0)];
      value := head.value;
    }

    /** listGET_OWNER_OF_HEAD_ENTRY: the head must exist. */
    method HeadOwner() returns (owner: nat)
      requires Valid() && View().items != []
      ensures owner == View().items[0].owner
    {
      assert nodes[0].next == nodes[After(|nodes|, 0)];
      owner := end.next.owner;
    }

    /** What the two insertions have in common: the links, the container pointer and the count. */
    method Link(node: ListItem, item: ListItem, ghost k: nat)
      requires |nodes| == count + 1 && Circular(nodes) && Members(nodes)
      requires k <= count && nodes[k] == node
      requires item !in nodes && item.value <= MAX_DELAY
      modifies this`count, this`nodes, nodes`next, nodes`prev, item`next, item`prev, item`container
      ensures nodes == SeqInsert(old(nodes), k + 1, item) && count == old(count) + 1
      ensures Circular(nodes) && Members(nodes)
      ensures forall i :: 0 <= i < |old(nodes)| ==> old(nodes)[i].container == old(nodes[i].container)
    {
      ghost var before := nodes;
      LinkBehind(node, item, nodes, k);
      item.container := this;
      count := count + 1;
      nodes := SeqInsert(nodes, k + 1, item);
      InsertedMembers(before, k + 1, item);
    }

    /** vListInsertEnd */
    method InsertEnd(item: ListItem)
      requires Valid()
      requires item !in nodes && item.container == null && item.value <= MAX_DELAY
      modifies this, nodes`next, nodes`prev, item`next, item`prev, item`container
      ensures Valid()
      ensures View() == Rings.InsertEnd(old(View()), item)
    {
      ghost var before, k := nodes, cursor;
      hide Circular, Members, SeqInsert;
      Link(index, item, k);
      index := item;
      cursor := k + 1;
      InsertBehindMarker(before, k, item);
    }

    /** The search of vListInsert. It ends at the marker, whose value is the largest there is. */
    method FindPredecessor(value: nat) returns (walker: ListItem, ghost p: nat)
      requires Valid() && value <= MAX_DELAY
      ensures p == InsertPosition(old(Keys()), value) <= count && walker == nodes[p]
    {
      if value == MAX_DELAY {
        walker := end.prev;
        p := count;
        assert walker == nodes[Before(|nodes|, 0)];
      } else {
        walker := end;
        p := 0;
        while walker.next.value <= value
          invariant p <= count && walker == nodes[p]
          invariant walker.next == nodes[After(|nodes|, p)]
          invariant forall i :: 0 <= i < p ==> Keys()[i] <= value
          decreases count - p
        {
          walker := walker.next;
          p := p + 1;
          assert nodes[p].next == nodes[After(|nodes|, p)];
        }
      }
      SearchStopsAt(Keys(), value, p);
    }

    /** vListInsert */
    method Insert(item: ListItem)
      requires Valid()
      requires item !in nodes && item.container == null && item.value <= MAX_DELAY
      modifies this, nodes`next, nodes`prev, item`next, item`prev, item`container
      ensures Valid()
      ensures View() == InsertAt(old(View()), InsertPosition(old(Keys()), item.value), item)
    {
      hide Circular, Members, SeqInsert, InsertPosition, Keys;
      ghost var before := nodes;
      var walker, p := FindPredecessor(item.value);
      Link(walker, item, p);
      InsertBehindMarker(before, p, item);
      assert before[cursor] == nodes[if cursor <= p then cursor else cursor + 1];
      cursor := if cursor > p then cursor + 1 else cursor;
    }

    /** The links, the container pointer and the count of a removal. */
    method Unlist(item: ListItem, ghost k: nat) returns (prev: ListItem)
      requires |nodes| == count + 1 && Circular(nodes) && Members(nodes)
      requires 1 <= k <= count && nodes[k] == item
      modifies this`count, this`nodes, nodes`next, nodes`prev, item`container
      ensures nodes == SeqDrop(old(nodes), k) && count == old(count) - 1
      ensures Circular(nodes) && Members(nodes) && item.container == null
      ensures old(nodes)[0].container == old(nodes[0].container) && prev == old(nodes)[k - 1]
    {
      ghost var before := nodes;
      Unlink(item, nodes, k);
      hide Circular;
      prev := item.prev;
      item.container := null;
      count := count - 1;
      nodes := SeqDrop(nodes, k);
      DroppedMembers(before, k);
    }

    /** vListRemove, once its list is known. */
    method RemoveNode(item: ListItem, ghost k: nat)
      requires Valid() && 1 <= k <= count && nodes[k] == item
      modifies this, nodes`next, nodes`prev, item`container
      ensures Valid() && item.container == null
      ensures View() == RemoveAt(old(View()), k - 1)
    {
      ghost var before, c := nodes, cursor;
      NodesDiffer(nodes, c, k);
      hide Circular, Members, SeqDrop;
      var prev := Unlist(item, k);
      DropBehindMarker(before, k);
      if index == item {
        index := prev;
      }
      cursor := if c >= k then c - 1 else c;
      DroppedAt(before, k, if c == k then k - 1 else c);
    }

    /** vListRemove; the list is the one the item's container pointer names. */
    static method Remove(item: ListItem)
      requires item.container != null && item.container.Valid() && item in item.container.View().items
      modifies item.container, item.container.nodes`next, item.container.nodes`prev, item`container
      ensures item.container == null
      ensures var list := old(item.container);
              && list.Valid()
              && list.View() == RemoveAt(old(list.View()), Position(old(list.View().items), item))
    {
      var list := item.container;
      list.RemoveNode(item, Position(list.View().items, item) + 1);
    }

    /** listGET_OWNER_OF_NEXT_ENTRY */
    method NextOwner() returns (owner: nat)
      requires Valid() && View().items != []
      modifies this
      ensures Valid()
      ensures View() == Advance(old(View()))
      ensures owner == Rotation(old(View()))[0].owner
    {
      AdvanceRotates(View());
      assert nodes[cursor].next == nodes[After(|nodes|, cursor)];
      assert nodes[0].next == nodes[After(|nodes|, 0)];
      index := index.next;
      cursor := if cursor < count then cursor + 1 else 0;
      if index == end {
        index := index.next;
        cursor := 1;
      }
      owner := index.owner;
    }
  }

  /** Inserting behind node k of the circle is inserting at position k of the items. */
  lemma InsertBehindMarker<T>(nodes: seq<T>, k: nat, item: T)
    requires k < |nodes|
    ensures var after := SeqInsert(nodes, k + 1, item);
            && after[1..] == SeqInsert(nodes[1..], k, item)
            && after[0] == nodes[0] && after[k + 1] == item
            && (forall i {:trigger nodes[i]} :: 0 <= i < |nodes| ==> after[if i <= k then i else i + 1] == nodes[i])
  {
  }

  /** The same for taking node k out. */
  lemma DropBehindMarker<T>(nodes: seq<T>, k: nat)
    requires 1 <= k < |nodes|
    ensures var after := SeqDrop(nodes, k);
            && after[1..] == SeqDrop(nodes[1..], k - 1)
            && after[0] == nodes[0]
  {
  }

  lemma DroppedAt<T>(nodes: seq<T>, k: nat, i: nat)
    requires 1 <= k < |nodes| && i < |nodes| && i != k
    ensures |SeqDrop(nodes, k)| == |nodes| - 1 && SeqDrop(nodes, k)[if i < k then i else i - 1] == nodes[i]
  {
  }

  /** The search of vListInsert determines its stopping place. */
  lemma SearchStopsAt(keys: seq<nat>, key: nat, p: nat)
    requires p <= |keys|
    requires forall i :: 0 <= i < p ==> keys[i] <= key
    requires p < |keys| ==> keys[p] > key
    ensures InsertPosition(keys, key) == p
  {
  }
}
