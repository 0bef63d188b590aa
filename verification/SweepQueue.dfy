/** The indexed binary heap that keeps sweep claims in the order they were last
    offered: the container/heap algorithms over a slice whose entries store
    their own position. */
module SweepQueue {
  import opened Common
  import opened ArtifactRepository

  /** Claims compare by order, then by object key. */
  predicate Before(sweeps: map<Name, Sweep>, left: Name, right: Name)
    requires left in sweeps && right in sweeps
  {
    if sweeps[left].order != sweeps[right].order then sweeps[left].order < sweeps[right].order else left < right
  }

  function Parent(place: nat): nat
    requires 0 < place
  {
    (place - 1) / 2
  }

  ghost predicate Known(queue: seq<Name>, sweeps: map<Name, Sweep>) {
    forall i | 0 <= i < |queue| :: queue[i] in sweeps
  }

  /** The child at this place does not come before its parent. */
  predicate LinkOk(queue: seq<Name>, sweeps: map<Name, Sweep>, place: nat)
    requires 0 < place < |queue| && queue[place] in sweeps && queue[Parent(place)] in sweeps
  {
    !Before(sweeps, queue[place], queue[Parent(place)])
  }

  /** Heap order on the first n places, save for the links above and below `hole`,
      whose children still respect the parent of the hole. */
  ghost predicate OrderedExcept(queue: seq<Name>, sweeps: map<Name, Sweep>, n: nat, hole: nat)
    requires n <= |queue| && Known(queue, sweeps)
  {
    && (forall i | 0 < i < n && i != hole && Parent(i) != hole :: LinkOk(queue, sweeps, i))
    && (0 < hole < |queue|
        ==> forall i | 0 < i < n && Parent(i) == hole :: !Before(sweeps, queue[i], queue[Parent(hole)]))
  }

  ghost predicate ChildrenOk(queue: seq<Name>, sweeps: map<Name, Sweep>, n: nat, place: nat)
    requires n <= |queue| && Known(queue, sweeps)
  {
    forall i | 0 < i < n && Parent(i) == place :: LinkOk(queue, sweeps, i)
  }

  ghost predicate Ordered(queue: seq<Name>, sweeps: map<Name, Sweep>, n: nat)
    requires n <= |queue| && Known(queue, sweeps)
  {
    forall i | 0 < i < n :: LinkOk(queue, sweeps, i)
  }

  /** Stored positions are exact: -1 marks an entry that is not queued. */
  ghost predicate Placed(queue: seq<Name>, index: map<Name, int>) {
    && (forall i | 0 <= i < |queue| :: queue[i] in index && index[queue[i]] == i)
    && (forall key | key in index && index[key] != -1 :: 0 <= index[key] < |queue| && queue[index[key]] == key)
  }

  function Swapped(queue: seq<Name>, i: nat, j: nat): seq<Name>
    requires i < |queue| && j < |queue|
  {
    queue[i := queue[j]][j := queue[i]]
  }

  lemma {:induction false} RootComesFirst(queue: seq<Name>, sweeps: map<Name, Sweep>, place: nat)
    requires place < |queue| && Known(queue, sweeps) && Ordered(queue, sweeps, |queue|)
    ensures sweeps[queue[0]].order <= sweeps[queue[place]].order
  {
    if 0 < place {
      RootComesFirst(queue, sweeps, Parent(place));
      assert LinkOk(queue, sweeps, place);
    }
  }

  /** Moving the element at `child` up past its parent moves the hole up. */
  lemma SwapUp(queue: seq<Name>, sweeps: map<Name, Sweep>, n: nat, child: nat)
    requires 0 < child < n <= |queue| && Known(queue, sweeps)
    requires OrderedExcept(queue, sweeps, n, child) && ChildrenOk(queue, sweeps, n, child)
    requires Before(sweeps, queue[child], queue[Parent(child)])
    ensures Known(Swapped(queue, Parent(child), child), sweeps)
    ensures OrderedExcept(Swapped(queue, Parent(child), child), sweeps, n, Parent(child))
    ensures ChildrenOk(Swapped(queue, Parent(child), child), sweeps, n, Parent(child))
  {
    var parent := Parent(child);
    var next := Swapped(queue, parent, child);
    forall i | 0 < i < n && i != parent ensures LinkOk(next, sweeps, i) {
      if i != child && Parent(i) != child {
        assert LinkOk(queue, sweeps, i);
      }
    }
    if 0 < parent {
      assert LinkOk(queue, sweeps, parent);
      forall i | 0 < i < n && Parent(i) == parent ensures !Before(sweeps, next[i], next[Parent(parent)]) {
        assert i != child ==> LinkOk(queue, sweeps, i);
      }
    }
  }

  /** Moving the smaller child up past the element at `hole` moves the hole down. */
  lemma SwapDown(queue: seq<Name>, sweeps: map<Name, Sweep>, n: nat, hole: nat, child: nat)
    requires hole < child < n <= |queue| && Parent(child) == hole && Known(queue, sweeps)
    requires OrderedExcept(queue, sweeps, n, hole)
    requires forall i | 0 < i < n && Parent(i) == hole :: !Before(sweeps, queue[i], queue[child])
    requires Before(sweeps, queue[child], queue[hole])
    ensures Known(Swapped(queue, hole, child), sweeps)
    ensures OrderedExcept(Swapped(queue, hole, child), sweeps, n, child)
    ensures LinkOk(Swapped(queue, hole, child), sweeps, child)
    ensures 0 < hole ==> LinkOk(Swapped(queue, hole, child), sweeps, hole)
  {
    var next := Swapped(queue, hole, child);
    forall i | 0 < i < n && i != child && Parent(i) != child ensures LinkOk(next, sweeps, i) {
      if i != hole && Parent(i) != hole {
        assert LinkOk(queue, sweeps, i);
      }
    }
    forall i | 0 < i < n && Parent(i) == child ensures !Before(sweeps, next[i], next[Parent(child)]) {
      assert LinkOk(queue, sweeps, i);
    }
  }

  lemma SwapPlaced(queue: seq<Name>, index: map<Name, int>, i: nat, j: nat)
    requires Placed(queue, index) && i < |queue| && j < |queue|
    ensures Placed(Swapped(queue, i, j), index[queue[j] := i][queue[i] := j])
  {
  }

  /** Replacing an element by the last one leaves a hole in its place. */
  lemma SwapLast(queue: seq<Name>, sweeps: map<Name, Sweep>, place: nat)
    requires place < |queue| && Known(queue, sweeps) && Ordered(queue, sweeps, |queue|)
    ensures Known(Swapped(queue, place, |queue| - 1), sweeps)
    ensures OrderedExcept(Swapped(queue, place, |queue| - 1), sweeps, |queue| - 1, place)
  {
    var n := |queue| - 1;
    var next := Swapped(queue, place, n);
    forall i | 0 < i < n && i != place && Parent(i) != place ensures LinkOk(next, sweeps, i) {
      assert LinkOk(queue, sweeps, i);
    }
    if 0 < place {
      assert LinkOk(queue, sweeps, place);
      forall i | 0 < i < n && Parent(i) == place ensures !Before(sweeps, next[i], next[Parent(place)]) {
        assert LinkOk(queue, sweeps, i);
      }
    }
  }

  lemma Filled(queue: seq<Name>, sweeps: map<Name, Sweep>, n: nat, hole: nat)
    requires n <= |queue| && Known(queue, sweeps)
    requires OrderedExcept(queue, sweeps, n, hole) && ChildrenOk(queue, sweeps, n, hole)
    requires 0 < hole < n ==> LinkOk(queue, sweeps, hole)
    ensures Ordered(queue, sweeps, n)
  {
  }

  lemma Shortened(queue: seq<Name>, sweeps: map<Name, Sweep>, index: map<Name, int>)
    requires 0 < |queue| && Known(queue, sweeps) && Placed(queue, index) && Ordered(queue, sweeps, |queue| - 1)
    ensures Known(queue[..|queue| - 1], sweeps)
    ensures Ordered(queue[..|queue| - 1], sweeps, |queue| - 1)
    ensures Placed(queue[..|queue| - 1], index[queue[|queue| - 1] := -1])
  {
    var n := |queue| - 1;
    var rest := queue[..n];
    forall i | 0 < i < n ensures LinkOk(rest, sweeps, i) {
      assert LinkOk(queue, sweeps, i);
    }
  }

  /** A new last element leaves a hole, without children, in its own place. */
  lemma Appended(queue: seq<Name>, sweeps: map<Name, Sweep>, index: map<Name, int>, key: Name)
    requires Known(queue, sweeps) && Placed(queue, index) && Ordered(queue, sweeps, |queue|)
    requires key in sweeps && (key in index ==> index[key] == -1)
    ensures Known(queue + [key], sweeps)
    ensures OrderedExcept(queue + [key], sweeps, |queue| + 1, |queue|)
            && ChildrenOk(queue + [key], sweeps, |queue| + 1, |queue|)
    ensures Placed(queue + [key], index[key := |queue|])
  {
    forall i | 0 < i < |queue| ensures LinkOk(queue + [key], sweeps, i) {
      assert LinkOk(queue, sweeps, i);
    }
  }

  /** The same entries are queued, in whatever positions. */
  ghost predicate SameMembers(before: map<Name, int>, after: map<Name, int>) {
    && before.Keys == after.Keys
    && (forall key | key in before :: before[key] == -1 <==> after[key] == -1)
  }

  /** The claims whose stored position says they are queued. */
  ghost function Queued(sweeps: map<Name, Sweep>, index: map<Name, int>): map<Name, Sweep> {
    map key | key in sweeps && key in index && index[key] != -1 :: sweeps[key]
  }

  class SweepHeap {
    var sweeps: map<Name, Sweep>
    var index: map<Name, int>
    var queue: seq<Name>

    ghost predicate Shaped()
      reads this
    {
      Known(queue, sweeps) && Placed(queue, index) && index.Keys == sweeps.Keys
    }

    /** Exact positions, heap order, and the map and the heap hold the same entries. */
    ghost predicate Valid()
      reads this
    {
      Shaped() && Ordered(queue, sweeps, |queue|)
    }

    ghost predicate Full()
      reads this
    {
      forall key | key in index :: index[key] != -1
    }

    constructor ()
      ensures Valid() && Full() && sweeps == map[] && queue == []
    {
      sweeps, index, queue := map[], map[], [];
    }

    method Swap(i: nat, j: nat)
      requires Shaped() && i < |queue| && j < |queue|
      modifies this`queue, this`index
      ensures Shaped() && queue == Swapped(old(queue), i, j)
      ensures SameMembers(old(index), index)
    {
      SwapPlaced(queue, index, i, j);
      index := index[queue[j] := i][queue[i] := j];
      queue := queue[i := queue[j]][j := queue[i]];
    }

    method Up(start: nat, ghost n: nat)
      requires Shaped() && start < n <= |queue|
      requires OrderedExcept(queue, sweeps, n, start) && ChildrenOk(queue, sweeps, n, start)
      modifies this`queue, this`index
      ensures |queue| == old(|queue|) && queue[n..] == old(queue[n..])
      ensures Shaped() && Ordered(queue, sweeps, n)
      ensures SameMembers(old(index), index)
    {
      hide OrderedExcept, ChildrenOk, Placed;
      var j: nat := start;
      while 0 < j && Before(sweeps, queue[j], queue[Parent(j)])
        invariant Shaped() && j < n <= |queue| == old(|queue|) && queue[n..] == old(queue[n..])
        invariant OrderedExcept(queue, sweeps, n, j) && ChildrenOk(queue, sweeps, n, j)
        invariant SameMembers(old(index), index)
        decreases j
      {
        SwapUp(queue, sweeps, n, j);
        Swap(Parent(j), j);
        j := Parent(j);
      }
      Filled(queue, sweeps, n, j);
    }

    method LeastChild(place: nat, n: nat) returns (child: nat)
      requires Shaped() && 2 * place + 1 < n <= |queue|
      ensures place < child < n && Parent(child) == place
      ensures forall kid | 0 < kid < n && Parent(kid) == place :: !Before(sweeps, queue[kid], queue[child])
    {
      child := 2 * place + 1;
      if child + 1 < n && Before(sweeps, queue[child + 1], queue[child]) {
        child := child + 1;
      }
    }

    method Down(start: nat, n: nat) returns (moved: bool)
      requires Shaped() && n <= |queue| && OrderedExcept(queue, sweeps, n, start)
      modifies this`queue, this`index
      ensures |queue| == old(|queue|) && queue[n..] == old(queue[n..])
      ensures Shaped() && (moved ==> Ordered(queue, sweeps, n))
      ensures !moved ==> queue == old(queue) && ChildrenOk(queue, sweeps, n, start)
      ensures SameMembers(old(index), index)
    {
      hide OrderedExcept, Placed;
      var i: nat := start;
      while 2 * i + 1 < n
        invariant Shaped() && start <= i && n <= |queue| == old(|queue|) && queue[n..] == old(queue[n..])
        invariant OrderedExcept(queue, sweeps, n, i)
        invariant i == start ==> queue == old(queue)
        invariant start < i ==> i < n && LinkOk(queue, sweeps, i)
        invariant SameMembers(old(index), index)
        decreases n - i
      {
        var child := LeastChild(i, n);
        if !Before(sweeps, queue[child], queue[i]) {
          break;
        }
        SwapDown(queue, sweeps, n, i, child);
        Swap(i, child);
        i := child;
      }
      moved := start < i;
      assert ChildrenOk(queue, sweeps, n, i);
      if moved {
        Filled(queue, sweeps, n, i);
      }
    }

    /** The slice part of Push: appends and records the position, then restores order. */
    method Push(key: Name)
      requires Valid() && key in sweeps && index[key] == -1
      modifies this`queue, this`index
      ensures Valid() && Queued(sweeps, index) == Queued(sweeps, old(index))[key := sweeps[key]]
      ensures index.Keys == old(index).Keys && index[key] != -1
      ensures forall other | other in sweeps && other != key :: index[other] == -1 <==> old(index)[other] == -1
    {
      Appended(queue, sweeps, index, key);
      index := index[key := |queue|];
      queue := queue + [key];
      Up(|queue| - 1, |queue|);
    }

    /** Takes the least recently offered claim off the heap. */
    method Pop() returns (key: Name)
      requires Valid() && queue != []
      modifies this`queue, this`index
      ensures Valid() && key in sweeps
      ensures IsLeast(Queued(sweeps, old(index)), key)
      ensures Queued(sweeps, index) == Queued(sweeps, old(index)) - {key}
      ensures |queue| == old(|queue|) - 1 && index[key] == -1
      ensures forall other | other in sweeps && other != key :: index[other] == -1 <==> old(index)[other] == -1
    {
      ghost var before := Queued(sweeps, index);
      key := queue[0];
      forall other | other in before ensures before[key].order <= before[other].order {
        RootComesFirst(queue, sweeps, index[other]);
      }
      TakeAt(0);
    }

    /** Restores order around a replaced element: down if it must, up otherwise. */
    method Restore(place: nat, n: nat)
      requires Shaped() && place <= n <= |queue| && OrderedExcept(queue, sweeps, n, place)
      modifies this`queue, this`index
      ensures |queue| == old(|queue|) && queue[n..] == old(queue[n..])
      ensures Shaped() && Ordered(queue, sweeps, n)
      ensures SameMembers(old(index), index)
    {
      hide OrderedExcept, ChildrenOk, Placed, LinkOk;
      var moved := Down(place, n);
      if !moved {
        if place < n {
          Up(place, n);
        } else {
          Filled(queue, sweeps, n, place);
        }
      }
    }

    /** Removes the entry stored at a position: heap.Remove, and heap.Pop at position zero. */
    method TakeAt(place: nat)
      requires Valid() && place < |queue|
      modifies this`queue, this`index
      ensures Valid() && |queue| == old(|queue|) - 1
      ensures old(queue)[place] in index && index[old(queue)[place]] == -1
      ensures index.Keys == old(index).Keys
      ensures forall other | other in index && other != old(queue)[place] ::
                index[other] == -1 <==> old(index)[other] == -1
    {
      hide OrderedExcept, ChildrenOk, Placed, LinkOk;
      var n := |queue| - 1;
      ghost var key := queue[place];
      SwapLast(queue, sweeps, place);
      Swap(place, n);
      assert queue[n..][0] == key;
      Restore(place, n);
      assert queue[n..][0] == key;
      Shortened(queue, sweeps, index);
      index := index[queue[n] := -1];
      queue := queue[..n];
    }

    /** Files a new claim in the map and pushes it. */
    method Insert(key: Name, sweep: Sweep)
      requires Valid() && Full() && key !in sweeps
      modifies this
      ensures Valid() && Full() && sweeps == old(sweeps)[key := sweep]
    {
      Refiled(queue, sweeps, index, key, sweep);
      sweeps := sweeps[key := sweep];
      index := index[key := -1];
      assert index.Keys == sweeps.Keys;
      Push(key);
    }

    /** Refiles a popped claim at a later order and pushes it again. */
    method Requeue(key: Name, sweep: Sweep)
      requires Valid() && key in sweeps && index[key] == -1
      modifies this
      ensures Valid() && sweeps == old(sweeps)[key := sweep] && index[key] != -1
      ensures forall other | other in sweeps && other != key :: index[other] == -1 <==> old(index)[other] == -1
    {
      Refiled(queue, sweeps, index, key, sweep);
      sweeps := sweeps[key := sweep];
      assert index[key := -1] == index;
      assert index.Keys == sweeps.Keys;
      Push(key);
    }

    /** Takes a claim off the heap, by its stored position, and out of the map. */
    method Remove(key: Name)
      requires Valid() && Full() && key in sweeps
      modifies this
      ensures Valid() && Full() && sweeps == old(sweeps) - {key}
    {
      assert queue[index[key]] == key;
      TakeAt(index[key]);
      Unfiled(queue, sweeps, index, key);
      sweeps := sweeps - {key};
      index := index - {key};
      assert index.Keys == sweeps.Keys;
    }
  }

  /** The order and positions of the queue do not depend on an entry outside it. */
  lemma Refiled(queue: seq<Name>, sweeps: map<Name, Sweep>, index: map<Name, int>, key: Name, sweep: Sweep)
    requires Known(queue, sweeps) && Placed(queue, index) && Ordered(queue, sweeps, |queue|)
    requires key in index ==> index[key] == -1
    ensures Known(queue, sweeps[key := sweep]) && Ordered(queue, sweeps[key := sweep], |queue|)
    ensures Placed(queue, index[key := -1])
  {
    forall i | 0 <= i < |queue| ensures queue[i] != key {}
    var refiled := sweeps[key := sweep];
    forall i | 0 < i < |queue| ensures LinkOk(queue, refiled, i) {
      assert LinkOk(queue, sweeps, i);
    }
  }

  lemma Unfiled(queue: seq<Name>, sweeps: map<Name, Sweep>, index: map<Name, int>, key: Name)
    requires Known(queue, sweeps) && Placed(queue, index) && Ordered(queue, sweeps, |queue|)
    requires key in index && index[key] == -1
    ensures Known(queue, sweeps - {key}) && Ordered(queue, sweeps - {key}, |queue|) && Placed(queue, index - {key})
  {
    forall i | 0 <= i < |queue| ensures queue[i] != key {}
    var rest := sweeps - {key};
    forall i | 0 < i < |queue| ensures LinkOk(queue, rest, i) {
      assert LinkOk(queue, sweeps, i);
    }
  }
}
