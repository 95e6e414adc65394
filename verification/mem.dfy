/** Memory bookkeeping (Mem.c): a table of at most 100 allocated pointers.
    malloc is an oracle: the pointer it returns is a parameter of Alloc. */
module Mem {
  import opened StdTypes

  const MAX_ALLOCATIONS: nat := 100

  /** A pointer: NULL_PTR or an opaque heap address. */
  datatype Ptr = Null | Block(address: nat)

  /** allocated_blocks and allocation_count. */
  datatype Allocator = Allocator(blocks: seq<Ptr>, count: nat)

  /** The shape the C globals always have: 100 slots, at most 100 in use. */
  predicate WellFormed(m: Allocator) {
    |m.blocks| == MAX_ALLOCATIONS && m.count <= MAX_ALLOCATIONS
  }

  /** No live block is recorded twice among the slots in use. */
  predicate LiveDistinct(m: Allocator)
    requires WellFormed(m)
  {
    forall i, j :: 0 <= i < j < m.count && m.blocks[i] != Null ==> m.blocks[i] != m.blocks[j]
  }

  /** p is recorded in one of the slots in use. */
  predicate Tracked(m: Allocator, p: Ptr)
    requires WellFormed(m)
  {
    exists i :: 0 <= i < m.count && m.blocks[i] == p
  }

  /** Mem_Init: every slot null, no allocation. */
  function Init(): (m: Allocator)
    ensures WellFormed(m) && m.count == 0
    ensures forall i :: 0 <= i < |m.blocks| ==> m.blocks[i] == Null
  {
    Allocator(seq(MAX_ALLOCATIONS, _ => Null), 0)
  }

  datatype AllocOutcome = AllocOutcome(state: Allocator, ptr: Ptr)

  /** Mem_Alloc, given what malloc returned: a full table or a failed malloc
      returns null and changes nothing; otherwise the pointer is recorded in
      the next slot. */
  function Alloc(m: Allocator, malloced: Ptr): (o: AllocOutcome)
    requires WellFormed(m)
    ensures WellFormed(o.state)
    ensures m.count >= MAX_ALLOCATIONS || malloced == Null ==> o == AllocOutcome(m, Null)
    ensures m.count < MAX_ALLOCATIONS && malloced != Null ==>
      o.ptr == malloced && o.state == Allocator(m.blocks[m.count := malloced], m.count + 1)
  {
    if m.count >= MAX_ALLOCATIONS then AllocOutcome(m, Null)
    else if malloced == Null then AllocOutcome(m, Null)
    else AllocOutcome(Allocator(m.blocks[m.count := malloced], m.count + 1), malloced)
  }

  /** How Mem_Free ended. */
  datatype FreeStatus = NullRejected | Released(slot: nat) | NotTracked

  datatype FreeOutcome = FreeOutcome(state: Allocator, status: FreeStatus)

  /** Mem_Free: null is refused; the first slot in use holding the pointer is
      nulled (the count is not decremented); an unknown pointer changes
      nothing. */
  function Free(m: Allocator, p: Ptr): (o: FreeOutcome)
    requires WellFormed(m)
    ensures WellFormed(o.state) && o.state.count == m.count
    ensures p == Null ==> o == FreeOutcome(m, NullRejected)
    ensures p != Null && !Tracked(m, p) ==> o == FreeOutcome(m, NotTracked)
    ensures p != Null && Tracked(m, p) ==>
      o.status.Released? && o.status.slot < m.count && m.blocks[o.status.slot] == p &&
      (forall j :: 0 <= j < o.status.slot ==> m.blocks[j] != p) &&
      o.state.blocks == m.blocks[o.status.slot := Null]
  {
    if p == Null then FreeOutcome(m, NullRejected)
    else
      var k := FirstIndex(m.blocks[..m.count], (b: Ptr) => b == p);
      if k < m.count then FreeOutcome(m.(blocks := m.blocks[k := Null]), Released(k))
      else FreeOutcome(m, NotTracked)
  }

  /** Mem_Check: 1 when the pointer is recorded in a slot in use, else 0. */
  function Check(m: Allocator, p: Ptr): (valid: int)
    requires WellFormed(m)
    ensures valid == 1 <==> Tracked(m, p)
    ensures valid == 0 <==> !Tracked(m, p)
  {
    if FirstIndex(m.blocks[..m.count], (b: Ptr) => b == p) < m.count then 1 else 0
  }

  /** After Init no pointer, not even null, checks as valid. */
  lemma InitTracksNothing(p: Ptr)
    ensures Check(Init(), p) == 0
  {
  }

  /** Alloc keeps live blocks distinct when malloc hands out a block that is
      not live, as a real allocator does. */
  lemma AllocPreservesLiveDistinct(m: Allocator, malloced: Ptr)
    requires WellFormed(m) && LiveDistinct(m)
    requires malloced == Null || !Tracked(m, malloced)
    ensures LiveDistinct(Alloc(m, malloced).state)
  {
  }

  /** Free keeps live blocks distinct. */
  lemma FreePreservesLiveDistinct(m: Allocator, p: Ptr)
    requires WellFormed(m) && LiveDistinct(m)
    ensures LiveDistinct(Free(m, p).state)
  {
  }

  /** Freeing a live block twice: the second call finds nothing and changes
      nothing. */
  lemma DoubleFreeDetected(m: Allocator, p: Ptr)
    requires WellFormed(m) && LiveDistinct(m)
    requires p != Null && Tracked(m, p)
    ensures var once := Free(m, p).state;
      Free(once, p) == FreeOutcome(once, NotTracked)
  {
    var o := Free(m, p);
    var k := o.status.slot;
    forall j | 0 <= j < m.count
      ensures o.state.blocks[j] != p
    {
      if j != k {
        if j < k {
          assert m.blocks[j] != p;
        } else {
          assert m.blocks[k] != m.blocks[j];
        }
      }
    }
  }

  /** Since a freed slot holds null and the count stays, null checks as valid
      once any block has been freed. */
  lemma NullValidAfterFree(m: Allocator, p: Ptr)
    requires WellFormed(m)
    requires p != Null && Tracked(m, p)
    ensures Check(Free(m, p).state, Null) == 1
  {
    var o := Free(m, p);
    assert o.state.blocks[o.status.slot] == Null;
  }

  /** One call of the bookkeeping interface, with malloc's answer for Alloc. */
  datatype Call = AllocCall(malloced: Ptr) | FreeCall(p: Ptr)

  /** The table after a sequence of calls, and how many Alloc calls succeeded. */
  datatype History = History(state: Allocator, allocations: nat)

  /** Replays `calls` in order from m, as any user of the interface might
      issue them; each call succeeds at most once. */
  function Run(m: Allocator, calls: seq<Call>): (h: History)
    requires WellFormed(m)
    ensures WellFormed(h.state)
    ensures h.allocations <= |calls|
    decreases |calls|
  {
    if |calls| == 0 then History(m, 0)
    else
      match calls[0]
      case AllocCall(r) =>
        var a := Alloc(m, r);
        var rest := Run(a.state, calls[1..]);
        History(rest.state, rest.allocations + (if a.ptr != Null then 1 else 0))
      case FreeCall(p) => Run(Free(m, p).state, calls[1..])
  }

  /** The count never decreases and counts every successful allocation, so
      over the whole lifetime at most 100 allocations succeed, however many
      blocks are freed. */
  lemma {:induction false} CountCountsAllocations(m: Allocator, calls: seq<Call>)
    requires WellFormed(m)
    ensures Run(m, calls).state.count == m.count + Run(m, calls).allocations
    ensures m.count <= Run(m, calls).state.count <= MAX_ALLOCATIONS
    decreases |calls|
  {
    if |calls| > 0 {
      match calls[0]
      case AllocCall(r) =>
        CountCountsAllocations(Alloc(m, r).state, calls[1..]);
      case FreeCall(p) =>
        CountCountsAllocations(Free(m, p).state, calls[1..]);
    }
  }

  /** From Init, at most 100 allocations succeed in any history. */
  lemma LifetimeAllocationsBounded(calls: seq<Call>)
    ensures Run(Init(), calls).allocations <= MAX_ALLOCATIONS
  {
    CountCountsAllocations(Init(), calls);
  }
}
