/** `circular_buffer.c`: a ring over a fixed storage array, proved to refine a bounded sequence. */
module CircularBuffer {

  /** The storage size up to which `head + element_position` cannot wrap around 16 bits. */
  const MAX_STORAGE_SIZE := 0x8000

  /** The last `n` elements of s, or all of them. */
  function Last<T>(s: seq<T>, n: nat): (r: seq<T>)
    ensures |r| == if |s| <= n then |s| else n
  {
    if |s| <= n then s else s[|s| - n..]
  }

  /** The first `n` elements of s, or all of them. */
  function First<T>(s: seq<T>, n: nat): (r: seq<T>)
    ensures |r| == if |s| <= n then |s| else n
  {
    if |s| <= n then s else s[..n]
  }

  /** s without its first `n` elements. */
  function Rest<T>(s: seq<T>, n: nat): (r: seq<T>)
    ensures First(s, n) + r == s
  {
    if |s| <= n then [] else s[n..]
  }

  /** The first `n` elements and the others. */
  lemma SplitFirst<T>(s: seq<T>, first: seq<T>, rest: seq<T>, n: nat)
    requires first + rest == s && |first| <= n && (|first| < n ==> rest == [])
    ensures First(s, n) == first && Rest(s, n) == rest
  {
  }

  lemma LastIsAll<T>(s: seq<T>, n: nat)
    requires |s| <= n
    ensures Last(s, n) == s
  {
  }

  lemma LastWithRoom<T>(s: seq<T>, x: T, n: nat)
    requires |s| < n
    ensures Last(s + [x], n) == s + [x]
  {
  }

  lemma LastWhenFull<T>(s: seq<T>, x: T, n: nat)
    requires |s| == n >= 1
    ensures Last(s + [x], n) == s[1..] + [x]
  {
  }

  lemma PeekStep<T>(s: seq<T>, position: nat, k: nat)
    requires position + k < |s|
    ensures First(Rest(s, position), k) + [s[position + k]] == First(Rest(s, position), k + 1)
  {
  }

  lemma PeekEnd<T>(s: seq<T>, position: nat, k: nat, length: nat)
    requires position + k >= |s| && k <= length
    ensures First(Rest(s, position), k) == First(Rest(s, position), length)
  {
  }

  lemma LastOfAppend<T>(s: seq<T>, t: seq<T>, x: T, n: nat)
    requires n >= 1
    ensures Last(Last(s + t, n) + [x], n) == Last(s + (t + [x]), n)
  {
    assert s + t + [x] == s + (t + [x]);
  }

  /** `increase_pointer`. */
  function Increased(pointer: nat, storageSize: nat): (p: nat)
    requires pointer < storageSize
    ensures p < storageSize
  {
    if pointer == storageSize - 1 then 0 else pointer + 1
  }

  /** `decrease_pointer`. */
  function Decreased(pointer: nat, storageSize: nat): (p: nat)
    requires pointer < storageSize
    ensures p < storageSize && Increased(p, storageSize) == pointer
  {
    if pointer == 0 then storageSize - 1 else pointer - 1
  }

  /** The flags tell the two cases of head == tail apart. */
  predicate Consistent(storageSize: nat, head: nat, tail: nat, empty: bool, full: bool) {
    && 1 <= storageSize <= MAX_STORAGE_SIZE
    && head < storageSize && tail < storageSize
    && (empty || full ==> head == tail)
    && (head == tail ==> empty != full)
  }

  /** The elements from head to tail around the storage, oldest first. */
  function Elements<T>(storage: seq<T>, head: nat, tail: nat, empty: bool): seq<T>
    requires head < |storage| && tail < |storage|
  {
    if empty then []
    else if head < tail then storage[head..tail]
    else storage[head..] + storage[..tail]
  }

  lemma ElementsSize<T>(storage: seq<T>, head: nat, tail: nat, empty: bool)
    requires head < |storage| && tail < |storage| && (empty ==> head == tail)
    ensures |Elements(storage, head, tail, empty)| <= |storage|
    ensures |Elements(storage, head, tail, empty)| == |storage| <==> head == tail && !empty
  {
  }

  lemma ElementsAt<T>(storage: seq<T>, head: nat, tail: nat, empty: bool, i: nat)
    requires head < |storage| && tail < |storage| && i < |Elements(storage, head, tail, empty)|
    ensures Elements(storage, head, tail, empty)[i]
            == storage[if head + i < |storage| then head + i else head + i - |storage|]
  {
  }

  /** Writing behind the last element of a ring that is not full appends. */
  lemma AddToElements<T>(storage: seq<T>, head: nat, tail: nat, empty: bool, x: T)
    requires head < |storage| && tail < |storage| && (empty ==> head == tail) && (head == tail ==> empty)
    ensures Elements(storage[tail := x], head, Increased(tail, |storage|), false)
            == Elements(storage, head, tail, empty) + [x]
  {
    var n := |storage|;
    var before, after := Elements(storage, head, tail, empty), Elements(storage[tail := x], head, Increased(tail, n), false);
    assert |after| == |before| + 1;
    forall i | 0 <= i < |after|
      ensures after[i] == (before + [x])[i]
    {
      ElementsAt(storage[tail := x], head, Increased(tail, n), false, i);
      if i < |before| {
        ElementsAt(storage, head, tail, empty, i);
      }
    }
  }

  /** Writing over the oldest element of a full ring and moving the head replaces it by a newest one. */
  lemma AddToFullElements<T>(storage: seq<T>, head: nat, x: T)
    requires head < |storage|
    ensures var h := Increased(head, |storage|);
            Elements(storage[head := x], h, h, false) == Elements(storage, head, head, false)[1..] + [x]
  {
  }

  lemma PopFromElements<T>(storage: seq<T>, head: nat, tail: nat)
    requires head < |storage| && tail < |storage|
    ensures var h := Increased(head, |storage|);
            [storage[head]] + Elements(storage, h, tail, tail == h) == Elements(storage, head, tail, false)
  {
  }

  /** The tail after `count` calls of `decrease_pointer`. */
  function DroppedTail(tail: nat, storageSize: nat, count: nat): (t: nat)
    requires tail < storageSize
    ensures t < storageSize
    decreases count
  {
    if count == 0 then tail else DroppedTail(Decreased(tail, storageSize), storageSize, count - 1)
  }

  lemma {:induction false} DroppedTailWithinRing(tail: nat, storageSize: nat, count: nat)
    requires tail < storageSize && count < storageSize
    ensures DroppedTail(tail, storageSize, count) == if count <= tail then tail - count else tail - count + storageSize
    decreases count
  {
    if count > 0 {
      DroppedTailWithinRing(Decreased(tail, storageSize), storageSize, count - 1);
    }
  }

  /** `count` is a multiple of the storage size. */
  predicate WholeTurns(count: nat, storageSize: nat)
    requires storageSize >= 1
  {
    count == 0 || (count >= storageSize && WholeTurns(count - storageSize, storageSize))
  }

  lemma {:induction false} DroppedTailAround(tail: nat, storageSize: nat, count: nat)
    requires tail < storageSize
    ensures DroppedTail(tail, storageSize, count) == tail <==> WholeTurns(count, storageSize)
    decreases count
  {
    if count < storageSize {
      DroppedTailWithinRing(tail, storageSize, count);
    } else {
      DroppedTailSplit(tail, storageSize, storageSize, count - storageSize);
      FullTurn(tail, storageSize);
      DroppedTailAround(tail, storageSize, count - storageSize);
    }
  }

  lemma FullTurn(tail: nat, storageSize: nat)
    requires tail < storageSize
    ensures DroppedTail(tail, storageSize, storageSize) == tail
  {
    DroppedTailSplit(tail, storageSize, storageSize - 1, 1);
    DroppedTailWithinRing(tail, storageSize, storageSize - 1);
    var t := DroppedTail(tail, storageSize, storageSize - 1);
    assert DroppedTail(t, storageSize, 1) == Decreased(t, storageSize);
  }

  lemma {:induction false} DroppedTailSplit(tail: nat, storageSize: nat, m: nat, n: nat)
    requires tail < storageSize
    ensures DroppedTail(tail, storageSize, m + n) == DroppedTail(DroppedTail(tail, storageSize, m), storageSize, n)
    decreases m
  {
    if m > 0 {
      DroppedTailSplit(Decreased(tail, storageSize), storageSize, m - 1, n);
    }
  }

  /** `circular_buffer_drop_from_end` never sets the empty flag. It leaves a consistent ring without the last `count`
      elements (all of them when there are fewer) exactly when it does not have to: it keeps an element, it drops
      nothing, or the ring is empty and the tail comes around to where it was. */
  lemma DropFromEndExactly<T>(storage: seq<T>, head: nat, tail: nat, empty: bool, full: bool, count: nat)
    requires Consistent(|storage|, head, tail, empty, full)
    ensures var before := Elements(storage, head, tail, empty);
            var t := DroppedTail(tail, |storage|, count);
            (&& Consistent(|storage|, head, t, empty, full && count == 0)
             && Elements(storage, head, t, empty) == before[..if count <= |before| then |before| - count else 0])
            <==> (count == 0 || count < |before| || (|before| == 0 && WholeTurns(count, |storage|)))
  {
    var before := Elements(storage, head, tail, empty);
    var n := |storage|;
    if count == 0 {
    } else if empty {
      DroppedTailAround(tail, n, count);
    } else if count < |before| {
      DroppedTailWithinRing(tail, n, count);
    }
  }

  class Ring<T(0)> {
    const storage: array<T>
    const wrap: bool
    var head: nat
    var tail: nat
    var empty: bool
    var full: bool

    predicate Valid()
      reads this
    {
      Consistent(storage.Length, head, tail, empty, full)
    }

    function Capacity(): nat {
      storage.Length
    }

    /** The elements between head and tail, oldest first. */
    function Contents(): seq<T>
      requires Valid()
      reads this, storage
    {
      Elements(storage[..], head, tail, empty)
    }

    constructor (storageSize: nat, wrap: bool, filler: T)
      requires 1 <= storageSize <= MAX_STORAGE_SIZE
      ensures Valid() && fresh(storage) && Contents() == []
      ensures Capacity() == storageSize && this.wrap == wrap
    {
      storage := new T[storageSize](_ => filler);
      this.wrap := wrap;
      head, tail, empty, full := 0, 0, true, false;
    }

    method Clear(filler: T)
      requires Valid()
      modifies this, storage
      ensures Valid() && Contents() == []
      ensures forall i :: 0 <= i < storage.Length ==> storage[i] == filler
    {
      head, tail, empty, full := 0, 0, true, false;
      for i := 0 to storage.Length
        invariant forall j :: 0 <= j < i ==> storage[j] == filler
        modifies storage
      {
        storage[i] := filler;
      }
    }

    method Size() returns (size: nat)
      requires Valid()
      ensures size == |Contents()| <= Capacity()
    {
      if empty {
        return 0;
      }
      if full {
        return storage.Length;
      }
      if tail > head {
        return tail - head;
      }
      return storage.Length - head + tail;
    }

    method FreeSpace() returns (free: nat)
      requires Valid()
      ensures free == Capacity() - |Contents()|
    {
      var size := Size();
      free := storage.Length - size;
    }

    /** Refused by a full ring unless it wraps; a full wrapping ring forgets its oldest element. */
    method Add(element: T) returns (added: bool)
      requires Valid()
      modifies this, storage
      ensures Valid()
      ensures added == (wrap || |old(Contents())| < Capacity())
      ensures Contents() == if added then Last(old(Contents()) + [element], Capacity()) else old(Contents())
    {
      hide Last, Elements;
      ghost var before, contents := storage[..], Contents();
      ElementsSize(before, head, tail, empty);
      if full {
        if wrap {
          AddToFullElements(before, head, element);
          LastWhenFull(contents, element, storage.Length);
          head := Increased(head, storage.Length);
        } else {
          return false;
        }
      } else {
        AddToElements(before, head, tail, empty, element);
        LastWithRoom(contents, element, storage.Length);
      }
      storage[tail] := element;
      assert storage[..] == before[tail := element];
      tail := Increased(tail, storage.Length);
      empty := false;
      full := tail == head;
      return true;
    }

    /** All or nothing without wrapping; with wrapping the last elements of the old contents and the array. */
    method AddArray(elements: seq<T>) returns (added: bool)
      requires Valid()
      modifies this, storage
      ensures Valid()
      ensures added == (wrap || |old(Contents())| + |elements| <= Capacity())
      ensures Contents() == if added then Last(old(Contents()) + elements, Capacity()) else old(Contents())
    {
      var freeSpace := FreeSpace();
      if !wrap && |elements| > freeSpace {
        return false;
      }
      AddEach(elements);
      return true;
    }

    /** The loop shared by `circular_buffer_add_array` and `circular_buffer_add_as_many_as_possible`. */
    method AddEach(elements: seq<T>)
      requires Valid()
      requires wrap || |Contents()| + |elements| <= Capacity()
      modifies this, storage
      ensures Valid() && Contents() == Last(old(Contents()) + elements, Capacity())
    {
      ghost var before := Contents();
      assert before + elements[..0] == before;
      for i := 0 to |elements|
        invariant Valid() && Contents() == Last(before + elements[..i], Capacity())
      {
        LastOfAppend(before, elements[..i], elements[i], Capacity());
        assert elements[..i + 1] == elements[..i] + [elements[i]];
        var _ := Add(elements[i]);
      }
      assert elements[..|elements|] == elements;
    }

    method AddAsManyAsPossible(elements: seq<T>) returns (count: nat)
      requires Valid()
      modifies this, storage
      ensures Valid()
      ensures var free := Capacity() - |old(Contents())|;
              && count == |First(elements, free)|
              && Contents() == old(Contents()) + First(elements, free)
    {
      var toAdd := FreeSpace();
      if |elements| < toAdd {
        toAdd := |elements|;
      }
      AddEach(elements[..toAdd]);
      return toAdd;
    }

    method Pop() returns (popped: bool, element: T)
      requires Valid()
      modifies this
      ensures Valid()
      ensures popped == (|old(Contents())| > 0)
      ensures popped ==> [element] + Contents() == old(Contents())
      ensures !popped ==> Contents() == []
    {
      element := storage[0];
      if empty {
        return false, element;
      }
      PopFromElements(storage[..], head, tail);
      element := storage[head];
      head := Increased(head, storage.Length);
      full := false;
      empty := tail == head;
      return true, element;
    }

    /** Reads and removes up to `length` elements. */
    method PopArray(length: nat) returns (elements: seq<T>)
      requires Valid()
      modifies this
      ensures Valid()
      ensures elements == First(old(Contents()), length) && Contents() == Rest(old(Contents()), length)
    {
      hide Elements, Consistent;
      ghost var before := Contents();
      elements := [];
      while |elements| < length
        invariant Valid() && |elements| <= length && elements + Contents() == before
      {
        var popped, element := Pop();
        if !popped {
          break;
        }
        assert elements + [element] + Contents() == elements + ([element] + Contents());
        elements := elements + [element];
      }
      SplitFirst(before, elements, Contents(), length);
    }

    method DropFromBeginning(count: nat) returns (dropped: nat)
      requires Valid()
      modifies this
      ensures Valid()
      ensures dropped == |First(old(Contents()), count)| && Contents() == Rest(old(Contents()), count)
    {
      var elements := PopArray(count);
      return |elements|;
    }

    /** Moves the tail back without looking at the contents. */
    method DropFromEnd(count: nat) returns (dropped: nat)
      requires Valid()
      modifies this
      ensures dropped == count
      ensures tail == DroppedTail(old(tail), storage.Length, count) && full == (old(full) && count == 0)
      ensures head == old(head) && empty == old(empty)
      ensures count == 0 || count < |old(Contents())| ==>
                Valid() && Contents() == old(Contents())[..|old(Contents())| - count]
    {
      DropFromEndExactly(storage[..], head, tail, empty, full, count);
      for i := 0 to count
        invariant tail < storage.Length && head == old(head) && empty == old(empty)
        invariant full == (old(full) && i == 0)
        invariant DroppedTail(tail, storage.Length, count - i) == DroppedTail(old(tail), storage.Length, count)
      {
        tail := Decreased(tail, storage.Length);
        full := false;
      }
      return count;
    }

    method Peek(position: nat) returns (found: bool, element: T)
      requires Valid()
      ensures found == (position < |Contents()|)
      ensures found ==> element == Contents()[position]
    {
      element := storage[0];
      var size := Size();
      if empty || position >= size {
        return false, element;
      }
      if head + position < storage.Length {
        element := storage[head + position];
      } else {
        element := storage[head + position - storage.Length];
      }
      return true, element;
    }

    method PeekArray(position: nat, length: nat) returns (elements: seq<T>)
      requires Valid()
      ensures elements == First(Rest(Contents(), position), length)
    {
      hide First, Rest;
      elements := [];
      assert First(Rest(Contents(), position), 0) == [];
      while |elements| < length
        invariant elements == First(Rest(Contents(), position), |elements|) && |elements| <= length
      {
        var found, element := Peek(position + |elements|);
        if !found {
          PeekEnd(Contents(), position, |elements|, length);
          break;
        }
        PeekStep(Contents(), position, |elements|);
        elements := elements + [element];
      }
    }
  }

  lemma ContentsFit<T(0)>(ring: Ring<T>)
    requires ring.Valid()
    ensures |ring.Contents()| <= ring.Capacity() && ring.Capacity() >= 1
    ensures Last(ring.Contents(), ring.Capacity()) == ring.Contents()
  {
  }

  // ---- runs ----

  datatype Operation<T> =
    | AddOp(element: T)
    | AddArrayOp(elements: seq<T>)
    | AddAsManyAsPossibleOp(elements: seq<T>)
    | PopOp
    | PopArrayOp(length: nat)
    | DropFromEndOp(count: nat)
    | ClearOp

  /** What an operation does to a bounded sequence. */
  function Applied<T>(op: Operation<T>, s: seq<T>, capacity: nat, wrap: bool): seq<T> {
    match op
    case AddOp(x) => if wrap || |s| < capacity then Last(s + [x], capacity) else s
    case AddArrayOp(xs) => if wrap || |s| + |xs| <= capacity then Last(s + xs, capacity) else s
    case AddAsManyAsPossibleOp(xs) => if |s| <= capacity then s + First(xs, capacity - |s|) else s
    case PopOp => Rest(s, 1)
    case PopArrayOp(n) => Rest(s, n)
    case DropFromEndOp(n) => if n < |s| then s[..|s| - n] else s
    case ClearOp => []
  }

  function AppliedAll<T>(ops: seq<Operation<T>>, s: seq<T>, capacity: nat, wrap: bool): seq<T> {
    if ops == [] then s
    else Applied(ops[|ops| - 1], AppliedAll(ops[..|ops| - 1], s, capacity, wrap), capacity, wrap)
  }

  /** `DropFromEndOp` may not empty the ring; every other operation is unrestricted. */
  predicate Permitted<T>(ops: seq<Operation<T>>, s: seq<T>, capacity: nat, wrap: bool) {
    forall i :: 0 <= i < |ops| && ops[i].DropFromEndOp? ==>
                  ops[i].count == 0 || ops[i].count < |AppliedAll(ops[..i], s, capacity, wrap)|
  }

  /** Any sequence of operations on a ring acts on its contents as on a bounded sequence. */
  method Perform<T(0)>(ring: Ring<T>, ops: seq<Operation<T>>, filler: T)
    requires ring.Valid() && Permitted(ops, ring.Contents(), ring.Capacity(), ring.wrap)
    modifies ring, ring.storage
    ensures ring.Valid()
    ensures ring.Contents() == AppliedAll(ops, old(ring.Contents()), ring.Capacity(), ring.wrap)
  {
    ghost var s := ring.Contents();
    for i := 0 to |ops|
      invariant ring.Valid() && ring.Contents() == AppliedAll(ops[..i], s, ring.Capacity(), ring.wrap)
    {
      assert ops[..i + 1][..i] == ops[..i];
      PerformOne(ring, ops[i], filler);
    }
    assert ops[..|ops|] == ops;
  }

  method PerformOne<T(0)>(ring: Ring<T>, op: Operation<T>, filler: T)
    requires ring.Valid() && (op.DropFromEndOp? ==> op.count == 0 || op.count < |ring.Contents()|)
    modifies ring, ring.storage
    ensures ring.Valid() && ring.Contents() == Applied(op, old(ring.Contents()), ring.Capacity(), ring.wrap)
  {
    match op
    case AddOp(x) => var _ := ring.Add(x);
    case AddArrayOp(xs) => var _ := ring.AddArray(xs);
    case AddAsManyAsPossibleOp(xs) => var _ := ring.AddAsManyAsPossible(xs);
    case PopOp => var _, _ := ring.Pop();
    case PopArrayOp(n) => var _ := ring.PopArray(n);
    case DropFromEndOp(n) => var _ := ring.DropFromEnd(n);
    case ClearOp => ring.Clear(filler);
  }

  lemma LastOfLast<T>(s: seq<T>, t: seq<T>, n: nat)
    ensures Last(Last(s, n) + t, n) == Last(s + t, n)
  {
  }

  function Additions<T>(chunks: seq<seq<T>>): seq<Operation<T>> {
    if chunks == [] then [] else Additions(chunks[..|chunks| - 1]) + [AddArrayOp(chunks[|chunks| - 1])]
  }

  /** However the input is cut into array additions, a wrapping ring ends up with the last elements of it all. */
  lemma {:induction false} WrappingAdditions<T>(chunks: seq<seq<T>>, s: seq<T>, capacity: nat)
    requires |s| <= capacity
    ensures AppliedAll(Additions(chunks), s, capacity, true) == Last(s + Flatten(chunks), capacity)
  {
    if |chunks| > 0 {
      var front, last := chunks[..|chunks| - 1], chunks[|chunks| - 1];
      var ops := Additions(chunks);
      assert ops[..|ops| - 1] == Additions(front);
      WrappingAdditions(front, s, capacity);
      LastOfLast(s + Flatten(front), last, capacity);
      assert s + Flatten(front) + last == s + Flatten(chunks);
    } else {
      assert s + Flatten(chunks) == s;
    }
  }

  function Flatten<T>(chunks: seq<seq<T>>): seq<T> {
    if chunks == [] then [] else Flatten(chunks[..|chunks| - 1]) + chunks[|chunks| - 1]
  }
}
