/**
  The sequence view of a kernel list (TCPv3/FreeRTOS/list.c).

  A kernel list is a circular list with an end marker and a walking index. Seen from
  outside it is the sequence of its items from the end marker onwards, and a position:
  position 0 is the end marker and position k is the k-th item. KernelList proves that
  the linked structure refines this view, and the scheduler works on the view.
 */
module Rings {
  import Arithmetic

  datatype Ring<T> = Ring(items: seq<T>, index: nat)

  ghost predicate Distinct<T>(s: seq<T>) {
    forall i, j :: 0 <= i < j < |s| ==> s[i] != s[j]
  }

  ghost predicate WellFormed<T>(r: Ring<T>) {
    r.index <= |r.items| && Distinct(r.items)
  }

  function EmptyRing<T>(): Ring<T> {
    Ring([], 0)
  }

  // ----- the four list operations, on the view

  function SeqInsert<T>(s: seq<T>, pos: nat, x: T): (r: seq<T>)
    requires pos <= |s|
    ensures |r| == |s| + 1 && r[pos] == x
  {
    s[..pos] + [x] + s[pos..]
  }

  function SeqDrop<T>(s: seq<T>, pos: nat): (r: seq<T>)
    requires pos < |s|
    ensures |r| == |s| - 1
  {
    s[..pos] + s[pos + 1..]
  }

  /** vListInsertEnd: the new item goes behind the index, and the index moves onto it. */
  function InsertEnd<T>(r: Ring<T>, x: T): Ring<T>
    requires r.index <= |r.items|
  {
    Ring(SeqInsert(r.items, r.index, x), r.index + 1)
  }

  /** Inserts at a given position; the index stays on the item it was on. */
  function InsertAt<T>(r: Ring<T>, pos: nat, x: T): Ring<T>
    requires pos <= |r.items|
  {
    Ring(SeqInsert(r.items, pos, x), if r.index > pos then r.index + 1 else r.index)
  }

  /** vListRemove: an index on the removed item steps back to its predecessor. */
  function RemoveAt<T>(r: Ring<T>, pos: nat): Ring<T>
    requires pos < |r.items|
  {
    Ring(SeqDrop(r.items, pos), if r.index > pos then r.index - 1 else r.index)
  }

  /** The step of listGET_OWNER_OF_NEXT_ENTRY: forward, jumping over the end marker. */
  function Advance<T>(r: Ring<T>): (r': Ring<T>)
    requires r.index <= |r.items| && r.items != []
    ensures 1 <= r'.index <= |r.items|
  {
    r.(index := if r.index < |r.items| then r.index + 1 else 1)
  }

  function Position<T(==)>(s: seq<T>, x: T): (p: nat)
    requires x in s
    ensures p < |s| && s[p] == x && x !in s[..p]
  {
    if s[0] == x then 0 else 1 + Position(s[1..], x)
  }

  /** The position found by the search of vListInsert: in front of the first larger key. */
  function InsertPosition(keys: seq<nat>, key: nat): (p: nat)
    ensures p <= |keys|
    ensures forall i :: 0 <= i < p ==> keys[i] <= key
    ensures p < |keys| ==> keys[p] > key
  {
    if keys == [] || keys[0] > key then 0 else 1 + InsertPosition(keys[1..], key)
  }

  ghost predicate Sorted(keys: seq<nat>) {
    forall i, j :: 0 <= i < j < |keys| ==> keys[i] <= keys[j]
  }

  // ----- insertion and removal

  /** Inserting by key keeps a list sorted, behind every equal key and before every larger one. */
  lemma SortedInsertIsStable(keys: seq<nat>, key: nat)
    requires Sorted(keys)
    ensures var p := InsertPosition(keys, key);
            && Sorted(SeqInsert(keys, p, key))
            && (forall i :: 0 <= i < |keys| ==> (keys[i] <= key <==> i < p))
  {
    var p := InsertPosition(keys, key);
    var s := SeqInsert(keys, p, key);
    forall i, j | 0 <= i < j < |s| ensures s[i] <= s[j] {
      assert s[i] == if i < p then keys[i] else if i == p then key else keys[i - 1];
      assert s[j] == if j < p then keys[j] else if j == p then key else keys[j - 1];
    }
  }

  /** vListRemove undoes vListInsert: the items and the index are as before. */
  lemma RemoveUndoesInsertAt<T>(r: Ring<T>, pos: nat, x: T)
    requires pos <= |r.items|
    ensures RemoveAt(InsertAt(r, pos, x), pos) == r
  {
    assert SeqDrop(SeqInsert(r.items, pos, x), pos) == r.items;
  }

  /** vListRemove undoes vListInsertEnd, although that one moves the index. */
  lemma RemoveUndoesInsertEnd<T>(r: Ring<T>, x: T)
    requires r.index <= |r.items|
    ensures RemoveAt(InsertEnd(r, x), r.index) == r
  {
    assert SeqDrop(SeqInsert(r.items, r.index, x), r.index) == r.items;
  }

  // ----- round robin

  /** The owners in the order in which the following calls of the next-entry macro return them. */
  function Rotation<T>(r: Ring<T>): seq<T>
    requires r.index <= |r.items|
  {
    r.items[r.index..] + r.items[..r.index]
  }

  /** What k consecutive calls of the next-entry macro return. */
  function Turns<T>(r: Ring<T>, k: nat): (owners: seq<T>)
    requires r.index <= |r.items| && r.items != []
    ensures |owners| == k
    decreases k
  {
    if k == 0 then []
    else
      var r' := Advance(r);
      [r'.items[r'.index - 1]] + Turns(r', k - 1)
  }

  lemma AdvanceRotates<T>(r: Ring<T>)
    requires r.index <= |r.items| && r.items != []
    ensures var r' := Advance(r);
            && r'.items[r'.index - 1] == Rotation(r)[0]
            && Rotation(r') == Rotation(r)[1..] + [Rotation(r)[0]]
  {
  }

  /** Turn i goes to entry i modulo n of the rotation: between two turns of one item every other item has one. */
  lemma {:induction false} TurnsFollowRotation<T>(r: Ring<T>, k: nat, i: nat)
    requires r.index <= |r.items| && r.items != []
    requires i < k
    ensures Turns(r, k)[i] == Rotation(r)[i % |r.items|]
    decreases k
  {
    AdvanceRotates(r);
    var n := |r.items|;
    if i > 0 {
      TurnsFollowRotation(Advance(r), k - 1, i - 1);
      Arithmetic.ModStep(i - 1, n);
      assert Turns(r, k)[i] == Turns(Advance(r), k - 1)[i - 1];
    } else {
      Arithmetic.SmallMod(0, n);
    }
  }

  lemma RotationKeepsItems<T>(r: Ring<T>)
    requires r.index <= |r.items|
    ensures multiset(Rotation(r)) == multiset(r.items)
    ensures Distinct(r.items) ==> Distinct(Rotation(r))
  {
    var n, i := |r.items|, r.index;
    assert r.items == r.items[..i] + r.items[i..];
    assert forall k :: 0 <= k < n ==> Rotation(r)[k] == r.items[if k < n - i then k + i else k - (n - i)];
  }

  /** A full round over an unchanged list returns each owner exactly once. */
  lemma FullRoundServesEachOnce<T>(r: Ring<T>)
    requires WellFormed(r) && r.items != []
    ensures var round := Turns(r, |r.items|);
            && round == Rotation(r)
            && multiset(round) == multiset(r.items)
            && Distinct(round)
  {
    var n := |r.items|;
    var round := Turns(r, n);
    forall i | 0 <= i < n ensures round[i] == Rotation(r)[i] {
      TurnsFollowRotation(r, n, i);
      Arithmetic.SmallMod(i, n);
    }
    assert round == Rotation(r);
    RotationKeepsItems(r);
  }

  /** An item added with vListInsertEnd gets the last turn of the next round; nobody else moves. */
  lemma InsertEndIsServedLast<T>(r: Ring<T>, x: T)
    requires r.index <= |r.items|
    ensures Rotation(InsertEnd(r, x)) == Rotation(r) + [x]
  {
    var s := SeqInsert(r.items, r.index, x);
    assert s[r.index + 1..] == r.items[r.index..];
    assert s[..r.index + 1] == r.items[..r.index] + [x];
  }

  lemma DropBeforeIndex<T>(r: Ring<T>, pos: nat)
    requires r.index <= |r.items| && pos < r.index
    ensures Rotation(RemoveAt(r, pos)) == SeqDrop(Rotation(r), |r.items| - r.index + pos)
  {
    var s, i := r.items, r.index;
    var d := SeqDrop(s, pos);
    assert d[i - 1..] == s[i..];
    assert d[..i - 1] == s[..pos] + s[pos + 1..i];
  }

  lemma DropBehindIndex<T>(r: Ring<T>, pos: nat)
    requires r.index <= pos < |r.items|
    ensures Rotation(RemoveAt(r, pos)) == SeqDrop(Rotation(r), pos - r.index)
  {
    var s, i := r.items, r.index;
    var d := SeqDrop(s, pos);
    assert d[i..] == s[i..pos] + s[pos + 1..];
    assert d[..i] == s[..i];
  }

  /** vListRemove keeps the order of the turns of all the remaining items. */
  lemma RemoveKeepsTurnOrder<T>(r: Ring<T>, pos: nat)
    requires r.index <= |r.items| && pos < |r.items|
    ensures var turn := if pos < r.index then |r.items| - r.index + pos else pos - r.index;
            && Rotation(r)[turn] == r.items[pos]
            && Rotation(RemoveAt(r, pos)) == SeqDrop(Rotation(r), turn)
  {
    if pos < r.index {
      DropBeforeIndex(r, pos);
    } else {
      DropBehindIndex(r, pos);
    }
  }

  // ----- membership, used by the layers above

  lemma InsertMembership<T>(s: seq<T>, pos: nat, x: T)
    requires pos <= |s|
    ensures forall y :: y in SeqInsert(s, pos, x) <==> y in s || y == x
    ensures Distinct(s) && x !in s ==> Distinct(SeqInsert(s, pos, x))
  {
    var t := SeqInsert(s, pos, x);
    assert s == s[..pos] + s[pos..];
    assert t[pos] == x;
    forall y | y in s ensures y in t {
      var i :| 0 <= i < |s| && s[i] == y;
      assert t[if i < pos then i else i + 1] == y;
    }
  }

  lemma DropMembership<T>(s: seq<T>, pos: nat)
    requires pos < |s| && Distinct(s)
    ensures forall y :: y in SeqDrop(s, pos) <==> y in s && y != s[pos]
    ensures Distinct(SeqDrop(s, pos))
  {
    var t := SeqDrop(s, pos);
    forall y | y in s && y != s[pos] ensures y in t {
      var i :| 0 <= i < |s| && s[i] == y;
      assert t[if i < pos then i else i - 1] == y;
    }
    forall y | y in t ensures y in s && y != s[pos] {
      var i :| 0 <= i < |t| && t[i] == y;
      assert s[if i < pos then i else i + 1] == y;
    }
  }

  // ----- leaving out

  /** b is a with some elements left out, the others in the same order. */
  predicate LeavesOut<T(==)>(a: seq<T>, b: seq<T>) {
    if b == [] then true
    else if a == [] then false
    else if a[0] == b[0] then LeavesOut(a[1..], b[1..])
    else LeavesOut(a[1..], b)
  }

  lemma {:induction false} NothingLeftOut<T>(a: seq<T>)
    ensures LeavesOut(a, a)
  {
    if a != [] {
      NothingLeftOut(a[1..]);
    }
  }

  lemma {:induction false} LeftOutMembers<T>(a: seq<T>, b: seq<T>)
    requires LeavesOut(a, b)
    ensures |b| <= |a| && forall x :: x in b ==> x in a
    decreases |a|
  {
    if b != [] {
      if a[0] == b[0] {
        LeftOutMembers(a[1..], b[1..]);
        assert b == [b[0]] + b[1..];
      } else {
        LeftOutMembers(a[1..], b);
      }
    }
  }

  lemma {:induction false} LeavingOutMore<T>(a: seq<T>, b: seq<T>, c: seq<T>)
    requires LeavesOut(a, b) && LeavesOut(b, c)
    ensures LeavesOut(a, c)
    decreases |a|
  {
    if b != [] && c != [] {
      if a[0] == b[0] {
        if b[0] == c[0] {
          LeavingOutMore(a[1..], b[1..], c[1..]);
        } else {
          LeavingOutMore(a[1..], b[1..], c);
        }
      } else if a[0] == c[0] {
        LeavingOutTail(b, c);
        LeavingOutMore(a[1..], b, c[1..]);
      } else {
        LeavingOutMore(a[1..], b, c);
      }
    }
  }

  lemma {:induction false} LeavingOutTail<T>(a: seq<T>, b: seq<T>)
    requires LeavesOut(a, b) && b != []
    ensures LeavesOut(a, b[1..])
    decreases |a|, 1
  {
    if a[0] == b[0] {
      assert [a[0]] + a[1..] == a;
      SkippingHead(a, b[1..]);
    } else {
      LeavingOutTail(a[1..], b);
      SkippingHead(a, b[1..]);
    }
  }

  lemma {:induction false} SkippingHead<T>(a: seq<T>, b: seq<T>)
    requires a != [] && LeavesOut(a[1..], b)
    ensures LeavesOut(a, b)
    decreases |a|, 0
  {
    if b != [] && a[0] == b[0] {
      LeavingOutTail(a[1..], b);
    }
  }

  lemma {:induction false} DroppingLeavesOut<T>(a: seq<T>, p: nat)
    requires p < |a|
    ensures LeavesOut(a, SeqDrop(a, p))
    decreases p
  {
    if p == 0 {
      assert SeqDrop(a, 0) == a[1..];
      NothingLeftOut(a[1..]);
      SkippingHead(a, a[1..]);
    } else {
      assert SeqDrop(a, p)[1..] == SeqDrop(a[1..], p - 1);
      DroppingLeavesOut(a[1..], p - 1);
    }
  }
}
