/** The cooperative scheduler of src/scheduler.c: a linked ready queue of coroutines over a call arena, each with
    its copy of the payload and its arguments on the heap. */
module Scheduling {
  import opened Words
  import Payload
  import opened PayloadDecoder
  import opened CallMemory
  import opened Rounds
  import opened Arena

  /** `wirecall_call`: the coroutine is the number of yields before its handler returns. */
  class Call {
    const id: nat
    const result: int
    const address: nat
    ghost const slot: nat
    const load: Load
    const values: array<Cell>
    var left: nat
    var completed: bool
    var nextReady: Call?

    constructor (id: nat, left: nat, result: int, address: nat, ghost slot: nat, load: Load, values: array<Cell>)
      ensures this.id == id && this.left == left && this.result == result && this.address == address
      ensures this.slot == slot && this.load == load && this.values == values && !completed && nextReady == null
    {
      this.id, this.left, this.result, this.address, this.slot := id, left, result, address, slot;
      this.load, this.values := load, values;
      completed, nextReady := false, null;
    }

    // `call_resume`: run to the next yield, or to the end.
    method Resume()
      requires !completed
      modifies this`left, this`completed
      ensures completed == (old(left) == 0)
      ensures left == if old(left) == 0 then 0 else old(left) - 1
    {
      if left == 0 { completed := true; } else { left := left - 1; }
    }
  }

  ghost predicate LinkAt(q: seq<Call>, i: nat)
    requires i < |q|
    reads q`nextReady
  {
    q[i].nextReady == if i + 1 < |q| then q[i + 1] else null
  }

  // The list that `next_ready` spells from `head` to `tail`.
  ghost predicate Chained(head: Call?, tail: Call?, q: seq<Call>)
    reads q`nextReady
  {
    && (forall i, j :: 0 <= i < j < |q| ==> q[i] != q[j])
    && (forall i :: 0 <= i < |q| ==> LinkAt(q, i))
    && (if q == [] then head == null && tail == null else head == q[0] && tail == q[|q| - 1])
  }

  ghost predicate AllSuspended(q: seq<Call>)
    reads q`completed
  {
    forall c :: c in q ==> !c.completed
  }

  ghost function ItemOf(c: Call): Item
    reads c`left
  {
    Item(c.id, c.left, c.result)
  }

  ghost function ItemsOf(q: seq<Call>): (r: seq<Item>)
    reads q`left
    ensures |r| == |q|
  {
    if q == [] then [] else ItemsOf(q[..|q| - 1]) + [ItemOf(q[|q| - 1])]
  }

  lemma {:induction false} ItemsAt(q: seq<Call>, i: nat)
    requires i < |q|
    ensures ItemsOf(q)[i] == ItemOf(q[i])
  {
    if i < |q| - 1 { ItemsAt(q[..|q| - 1], i); }
  }

  lemma ItemsTail(q: seq<Call>)
    requires q != []
    ensures ItemsOf(q) == [ItemOf(q[0])] + ItemsOf(q[1..])
  {
    hide ItemsOf, ItemOf;
    forall i | 0 <= i < |q| ensures ItemsOf(q)[i] == ([ItemOf(q[0])] + ItemsOf(q[1..]))[i] {
      ItemsAt(q, i);
      if i > 0 { ItemsAt(q[1..], i - 1); }
    }
  }

  // ---------- slots ----------

  ghost function SlotsOf(q: seq<Call>): set<nat> {
    set i | 0 <= i < |q| :: q[i].slot
  }

  // Every queued call holds a live slot of the arena, no two the same.
  ghost predicate Housed(live: set<nat>, base: nat, elem: nat, q: seq<Call>) {
    && (forall i :: 0 <= i < |q| ==> HousedAt(live, base, elem, q[i]))
    && (forall i, j :: 0 <= i < j < |q| ==> q[i].slot != q[j].slot)
  }

  ghost predicate HousedAt(live: set<nat>, base: nat, elem: nat, c: Call) {
    c.slot in live && c.address == Address(base, elem, c.slot)
  }

  lemma HousedTail(live: set<nat>, base: nat, elem: nat, q: seq<Call>)
    requires Housed(live, base, elem, q) && q != []
    ensures HousedAt(live, base, elem, q[0])
    ensures Housed(live - {q[0].slot}, base, elem, q[1..])
    ensures Housed(live, base, elem, q[1..] + [q[0]])
  {
    hide HousedAt;
    var tail := q[1..];
    forall i | 0 <= i < |tail| ensures HousedAt(live, base, elem, tail[i]) && tail[i].slot != q[0].slot {
      assert tail[i] == q[i + 1];
    }
    forall i | 0 <= i < |tail| ensures HousedAt(live - {q[0].slot}, base, elem, tail[i]) {
      Spared(live, base, elem, tail[i], q[0].slot);
    }
  }

  lemma HousedInit(live: set<nat>, base: nat, elem: nat, q: seq<Call>, c: Call)
    requires Housed(live, base, elem, q + [c])
    ensures Housed(live, base, elem, q)
  {
    var all := q + [c];
    forall i | 0 <= i < |q| ensures HousedAt(live, base, elem, q[i]) { assert all[i] == q[i]; }
    forall i, j | 0 <= i < j < |q| ensures q[i].slot != q[j].slot { assert all[i] == q[i] && all[j] == q[j]; }
  }

  lemma Spared(live: set<nat>, base: nat, elem: nat, c: Call, slot: nat)
    requires HousedAt(live, base, elem, c) && c.slot != slot
    ensures HousedAt(live - {slot}, base, elem, c)
  {
  }

  lemma HousedMore(live: set<nat>, base: nat, elem: nat, q: seq<Call>, c: Call)
    requires Housed(live, base, elem, q) && c.slot !in live && c.address == Address(base, elem, c.slot)
    ensures Housed(live + {c.slot}, base, elem, q + [c])
  {
    forall i | 0 <= i < |q| ensures q[i].slot != c.slot {
      assert HousedAt(live, base, elem, q[i]);
    }
  }

  lemma SlotsCons(q: seq<Call>)
    requires q != []
    ensures SlotsOf(q) == {q[0].slot} + SlotsOf(q[1..])
  {
    forall s ensures s in SlotsOf(q) <==> s == q[0].slot || s in SlotsOf(q[1..]) {
      if s in SlotsOf(q) {
        var i :| 0 <= i < |q| && q[i].slot == s;
        if i > 0 { assert q[1..][i - 1].slot == s; }
      }
      if s in SlotsOf(q[1..]) {
        var i :| 0 <= i < |q[1..]| && q[1..][i].slot == s;
        assert q[i + 1].slot == s;
      }
    }
  }

  lemma SlotsRotate(q: seq<Call>)
    requires q != []
    ensures SlotsOf(q[1..] + [q[0]]) == SlotsOf(q)
  {
    var r := q[1..] + [q[0]];
    SlotsCons(q);
    forall s ensures s in SlotsOf(r) <==> s == q[0].slot || s in SlotsOf(q[1..]) {
      if s in SlotsOf(r) {
        var i :| 0 <= i < |r| && r[i].slot == s;
        if i < |q| - 1 { assert q[1..][i].slot == s; }
      }
      if s in SlotsOf(q[1..]) {
        var i :| 0 <= i < |q[1..]| && q[1..][i].slot == s;
        assert r[i].slot == s;
      }
      assert r[|q| - 1].slot == q[0].slot;
    }
  }

  // ---------- memory ----------

  ghost predicate StockedAt(blocks: Blocks, c: Call)
    reads c.values
  {
    Holds(blocks, c.load) && Spells(c.values, c.load)
  }

  // Every queued call has its payload and arguments, and no two share a block.
  ghost predicate Stocked(blocks: Blocks, q: seq<Call>)
    reads set i | 0 <= i < |q| :: q[i].values
  {
    && (forall i :: 0 <= i < |q| ==> StockedAt(blocks, q[i]))
    && (forall i, j :: 0 <= i < j < |q| ==> Owned(q[i].load) !! Owned(q[j].load))
  }

  ghost function BlocksOf(q: seq<Call>): set<nat> {
    if q == [] then {} else BlocksOf(q[..|q| - 1]) + Owned(q[|q| - 1].load)
  }

  lemma StockedKept(blocks: Blocks, after: Blocks, c: Call)
    requires StockedAt(blocks, c) && 0 !in after
    requires forall b :: b in Owned(c.load) && b in blocks ==> b in after && after[b] == blocks[b]
    ensures StockedAt(after, c)
  {
    hide Holds, Owned, Spells;
    HoldsLive(blocks, c.load);
    OthersKeep(blocks, after, c.load);
  }

  lemma StockedTail(blocks: Blocks, q: seq<Call>)
    requires Stocked(blocks, q) && q != [] && 0 !in blocks
    ensures StockedAt(blocks, q[0]) && Stocked(blocks, q[1..])
    ensures Stocked(blocks - Owned(q[0].load), q[1..])
    ensures Stocked(blocks, q[1..] + [q[0]])
  {
    hide StockedAt, Owned;
    var tail := q[1..];
    forall i | 0 <= i < |tail| ensures StockedAt(blocks - Owned(q[0].load), tail[i]) {
      assert tail[i] == q[i + 1];
      StockedKept(blocks, blocks - Owned(q[0].load), tail[i]);
    }
  }

  lemma StockedMore(blocks: Blocks, q: seq<Call>, after: Blocks, c: Call)
    requires Stocked(blocks, q) && 0 !in after && StockedAt(after, c) && Owned(c.load) !! blocks.Keys
    requires forall b :: b in blocks ==> b in after && after[b] == blocks[b]
    ensures Stocked(after, q + [c])
  {
    forall i | 0 <= i < |q| ensures StockedAt(after, q[i]) && Owned(q[i].load) <= blocks.Keys {
      HoldsLive(blocks, q[i].load);
      StockedKept(blocks, after, q[i]);
    }
  }

  lemma BlocksSnoc(q: seq<Call>, c: Call)
    ensures BlocksOf(q + [c]) == BlocksOf(q) + Owned(c.load)
  {
    assert (q + [c])[..|q|] == q;
  }

  lemma {:induction false} BlocksCons(q: seq<Call>)
    requires q != []
    ensures BlocksOf(q) == Owned(q[0].load) + BlocksOf(q[1..])
  {
    hide Owned;
    if |q| > 1 {
      BlocksCons(q[..|q| - 1]);
      assert q[..|q| - 1][1..] == q[1..][..|q[1..]| - 1];
    }
  }

  class Scheduler {
    var head: Call?
    var tail: Call?
    const arena: FixedArena
    const heap: Heap
    var done: seq<Report>
    ghost var queue: seq<Call>
    ghost var pool: set<Call>

    ghost predicate Listed()
      reads this`head, this`tail, this`queue, this`pool, pool
    {
      (forall c :: c in queue ==> c in pool) && Chained(head, tail, queue) && AllSuspended(queue)
    }

    ghost predicate Lodged()
      reads this`queue, arena
    {
      arena.Valid() && Housed(arena.live, arena.base, arena.elem, queue)
    }

    ghost predicate Supplied()
      reads this`queue, heap, set i | 0 <= i < |queue| :: queue[i].values
    {
      heap.Valid() && Stocked(heap.blocks, queue)
    }

    ghost predicate Valid()
      reads this`head, this`tail, this`queue, this`pool, arena, heap, pool
      reads set i | 0 <= i < |queue| :: queue[i].values
    {
      Listed() && Lodged() && Supplied()
    }

    constructor (arena: FixedArena, heap: Heap)
      requires arena.Valid() && heap.Valid()
      ensures Valid() && this.arena == arena && this.heap == heap && queue == [] && pool == {} && done == []
    {
      head, tail, this.arena, this.heap, done, queue, pool := null, null, arena, heap, [], [], {};
    }

    lemma EmptyIff()
      requires Valid()
      ensures queue == [] <==> head == null
    {
    }

    // The call is not queued, its slot and its blocks are its own, and it could be queued.
    ghost predicate Apart(call: Call)
      reads this`queue, this`pool, arena, heap, call.values, set i | 0 <= i < |queue| :: queue[i].values
    {
      && call in pool && call !in queue
      && HousedAt(arena.live, arena.base, arena.elem, call)
      && Housed(arena.live - {call.slot}, arena.base, arena.elem, queue)
      && Housed(arena.live, arena.base, arena.elem, queue + [call])
      && StockedAt(heap.blocks, call)
      && Stocked(heap.blocks - Owned(call.load), queue)
      && Stocked(heap.blocks, queue + [call])
    }

    // `enqueue`
    method Enqueue(call: Call)
      requires Chained(head, tail, queue) && call !in queue && call in pool && forall c :: c in queue ==> c in pool
      modifies this`head, this`tail, this`queue, pool`nextReady
      ensures Chained(head, tail, queue) && queue == old(queue) + [call]
    {
      call.nextReady := null;
      if tail != null {
        tail.nextReady := call;
      } else {
        head := call;
      }
      tail := call;
      queue := queue + [call];
      forall i | 0 <= i < |queue| ensures LinkAt(queue, i) {
        if i < |old(queue)| { assert old(LinkAt(queue, i)); }
      }
    }

    // `dequeue`
    method Dequeue() returns (call: Call?)
      requires Chained(head, tail, queue) && forall c :: c in queue ==> c in pool
      modifies this`head, this`tail, this`queue, pool`nextReady
      ensures Chained(head, tail, queue)
      ensures if old(queue) == [] then call == null && queue == []
              else call == old(queue)[0] && queue == old(queue)[1..] && call !in queue
    {
      call := head;
      if call == null { return; }
      assert LinkAt(queue, 0);
      head := call.nextReady;
      if head == null { tail := null; }
      call.nextReady := null;
      queue := queue[1..];
      forall i | 0 <= i < |queue| ensures LinkAt(queue, i) {
        assert old(LinkAt(queue, i + 1));
      }
    }

    // The head of the queue, with what it takes to free it or to queue it again.
    method Take() returns (call: Call)
      requires Valid() && queue != []
      modifies this`head, this`tail, this`queue, pool`nextReady
      ensures Valid() && call == old(queue)[0] && queue == old(queue)[1..]
      ensures !call.completed && call in pool && Apart(call)
    {
      hide Housed, HousedAt, FixedArena.Valid, Address, Chained, Stocked, StockedAt, Owned;
      HousedTail(arena.live, arena.base, arena.elem, queue);
      HousedInit(arena.live, arena.base, arena.elem, queue[1..], queue[0]);
      StockedTail(heap.blocks, queue);
      assert queue[0] in queue && forall c :: c in queue[1..] ==> c in queue;
      call := Dequeue();
    }

    // A call off the queue runs.
    method Advance(call: Call)
      requires Valid() && Apart(call) && !call.completed
      modifies call`left, call`completed
      ensures Valid() && Apart(call)
      ensures call.completed == (old(ItemOf(call)).left == 0) && ItemsOf(queue) == old(ItemsOf(queue))
      ensures ItemOf(call) == if call.completed then old(ItemOf(call)) else Again(old(ItemOf(call)))
    {
      hide Housed, HousedAt, FixedArena.Valid, Chained, Stocked, StockedAt, Owned, ItemsOf;
      call.Resume();
    }

    method Requeue(call: Call)
      requires Valid() && Apart(call) && !call.completed
      modifies this`head, this`tail, this`queue, pool`nextReady
      ensures Valid() && queue == old(queue) + [call]
      ensures ItemsOf(queue) == old(ItemsOf(queue)) + [ItemOf(call)]
    {
      hide Housed, HousedAt, Stocked, StockedAt, FixedArena.Valid, Chained, ItemsOf, Owned;
      ghost var rest := queue;
      Enqueue(call);
      ItemsSnoc(rest, call);
    }

    // `call_free`
    method Discard(call: Call)
      requires Valid() && Apart(call)
      modifies arena, heap
      ensures Valid() && arena.live == old(arena.live) - {call.slot}
      ensures heap.blocks == old(heap.blocks) - Owned(call.load)
    {
      hide Housed, HousedAt, Stocked, StockedAt, Owned, Scheduler.Listed, Scheduler.Lodged, Scheduler.Supplied;
      FreeLoad(call);
      FreeSlot(call);
    }

    method FreeSlot(call: Call)
      requires Lodged() && HousedAt(arena.live, arena.base, arena.elem, call)
      requires Housed(arena.live - {call.slot}, arena.base, arena.elem, queue)
      modifies arena
      ensures Lodged() && arena.live == old(arena.live) - {call.slot}
    {
      NotNull(arena.base, arena.elem, call.slot);
      hide Housed, FixedArena.Valid, Address;
      arena.Free(call.address, call.slot);
    }

    method FreeLoad(call: Call)
      requires Supplied() && StockedAt(heap.blocks, call) && Stocked(heap.blocks - Owned(call.load), queue)
      modifies heap
      ensures Supplied() && heap.blocks == old(heap.blocks) - Owned(call.load)
    {
      hide Stocked, Holds, Spells, Owned;
      Release(heap, call.values, call.load);
    }

    // `call_finish`: the `done` callback, then the slot goes back to the arena.
    method Finish(call: Call)
      requires Valid() && Apart(call)
      modifies this`done, arena, heap
      ensures Valid() && arena.live == old(arena.live) - {call.slot}
      ensures heap.blocks == old(heap.blocks) - Owned(call.load)
      ensures done == old(done) + [Report(call.id, call.result)] && Report(call.id, call.result) == Answer(ItemOf(call))
    {
      hide Housed, HousedAt, FixedArena.Valid, Chained, Stocked, StockedAt, Owned;
      done := done + [Report(call.id, call.result)];
      Discard(call);
    }

    // One turn of the loop in `wirecall_scheduler_run_ready`.
    method Turn()
      requires Valid() && queue != []
      modifies this`head, this`tail, this`queue, this`done, arena, heap, pool
      ensures Valid()
      ensures done + Serve(ItemsOf(queue)) == old(done + Serve(ItemsOf(queue)))
      ensures Weight(ItemsOf(queue)) < old(Weight(ItemsOf(queue)))
      ensures arena.live - SlotsOf(queue) == old(arena.live) - SlotsOf(old(queue))
      ensures heap.blocks - BlocksOf(queue) == old(heap.blocks) - BlocksOf(old(queue))
    {
      hide Serve, Weight, ItemsOf, ItemOf, SlotsOf, BlocksOf, Owned, Scheduler.Valid, Scheduler.Apart;
      ghost var first := ItemOf(queue[0]);
      ItemsTail(queue);
      TurnItems(first, ItemsOf(queue[1..]));
      TurnSlots(arena.live, queue);
      TurnBlocks(heap.blocks, queue);
      var call := Take();
      ghost var rest := queue;
      Advance(call);
      if !call.completed {
        Requeue(call);
      } else {
        Finish(call);
        assert done == old(done) + [Answer(first)];
        assert done + Serve(ItemsOf(rest)) == old(done) + ([Answer(first)] + Serve(ItemsOf(rest)));
      }
    }

    // `wirecall_scheduler_run_ready`: until the queue is empty.
    method RunReady()
      requires Valid()
      modifies this`head, this`tail, this`queue, this`done, arena, heap, pool
      ensures Valid() && queue == []
      ensures done == old(done) + Serve(old(ItemsOf(queue)))
      ensures arena.live == old(arena.live) - SlotsOf(old(queue))
      ensures heap.blocks == old(heap.blocks) - BlocksOf(old(queue))
    {
      hide Serve, Weight, SlotsOf, BlocksOf, ItemsOf, Scheduler.Valid;
      EmptyIff();
      while head != null
        invariant Valid() && (queue == [] <==> head == null)
        invariant done + Serve(ItemsOf(queue)) == old(done) + Serve(old(ItemsOf(queue)))
        invariant arena.live - SlotsOf(queue) == old(arena.live) - SlotsOf(old(queue))
        invariant heap.blocks - BlocksOf(queue) == old(heap.blocks) - BlocksOf(old(queue))
        decreases Weight(ItemsOf(queue))
      {
        Turn();
        EmptyIff();
      }
      ServeNone();
    }

    // `wirecall_scheduler_destroy`, up to the pages: queued calls are freed without a `done`.
    method Destroy()
      requires Valid()
      modifies this`head, this`tail, this`queue, this`done, arena, heap, pool
      ensures Valid() && queue == [] && done == old(done)
      ensures arena.live == old(arena.live) - SlotsOf(old(queue))
      ensures heap.blocks == old(heap.blocks) - BlocksOf(old(queue))
    {
      hide SlotsOf, BlocksOf, Owned, Scheduler.Valid, Scheduler.Apart;
      EmptyIff();
      while head != null
        invariant Valid() && (queue == [] <==> head == null) && done == old(done)
        invariant arena.live - SlotsOf(queue) == old(arena.live) - SlotsOf(old(queue))
        invariant heap.blocks - BlocksOf(queue) == old(heap.blocks) - BlocksOf(old(queue))
        decreases |queue|
      {
        TurnSlots(arena.live, queue);
        TurnBlocks(heap.blocks, queue);
        var call := Take();
        Discard(call);
        EmptyIff();
      }
      ServeNone();
    }

    // `wirecall_scheduler_submit`: `created` says whether the coroutine could be created.
    method Submit(id: nat, left: nat, result: int, data: seq<byte>, created: bool) returns (ok: bool, started: bool)
      requires Valid()
      modifies this, arena, heap, pool`nextReady
      ensures Valid()
      ensures ok == (|old(arena.live)| < arena.capacity && (data == [] || heap.grants(old(heap.calls))))
      ensures started == (ok && created && Payload.Decode(data).Some? && heap.Granted(old(heap.calls)))
      ensures !started ==> queue == old(queue) && arena.live == old(arena.live) && heap.blocks == old(heap.blocks)
      ensures done == old(done) + if ok && !started then [Report(id, -1)] else []
      ensures started ==> |queue| == |old(queue)| + 1 && queue[..|old(queue)|] == old(queue)
      ensures started ==> ItemsOf(queue) == old(ItemsOf(queue)) + [Item(id, left, result)]
      ensures started ==>
                var call := queue[|old(queue)|];
                && fresh(call) && call.slot !in old(arena.live) && arena.live == old(arena.live) + {call.slot}
                && call.load.data == data && Owned(call.load) !! old(heap.blocks.Keys)
                && heap.blocks.Keys == old(heap.blocks.Keys) + Owned(call.load)
    {
      hide ItemsOf, FixedArena.Valid, Housed, Stocked, Holds, Spells, Owned, Payload.Decode, Scheduler.Listed;
      LiveBound(arena);
      started := false;
      ghost var live, blocks := arena.live, heap.blocks;
      var p, slot := arena.Alloc();
      if p == 0 { return false, false; }
      var ready, values, load;
      ok, ready, values, load := Prepare(heap, data);
      started := ok && ready && created;
      if started {
        Start(id, left, result, p, slot, load, values, live, blocks);
      } else {
        if ok && ready {
          Release(heap, values, load);
          assert heap.blocks == blocks;
        }
        if ok { done := done + [Report(id, -1)]; }
        arena.Free(p, slot);
        assert arena.live == live;
      }
    }

    // A call with its slot and its memory goes to the end of the queue.
    method Start(id: nat, left: nat, result: int, p: nat, ghost slot: nat, load: Load, values: array<Cell>,
                 ghost live: set<nat>, ghost blocks: Blocks)
      requires Listed() && arena.Valid() && heap.Valid()
      requires Housed(live, arena.base, arena.elem, queue) && Stocked(blocks, queue)
      requires slot !in live && arena.live == live + {slot} && p == Address(arena.base, arena.elem, slot)
      requires Holds(heap.blocks, load) && Spells(values, load) && Owned(load) !! blocks.Keys
      requires forall b :: b in blocks ==> b in heap.blocks && heap.blocks[b] == blocks[b]
      modifies this`head, this`tail, this`queue, this`pool, pool`nextReady
      ensures Valid() && |queue| == |old(queue)| + 1 && queue[..|old(queue)|] == old(queue)
      ensures ItemsOf(queue) == old(ItemsOf(queue)) + [Item(id, left, result)]
      ensures var call := queue[|old(queue)|]; fresh(call) && call.slot == slot && call.load == load
    {
      hide ItemsOf, Chained, FixedArena.Valid, Address, Housed, Stocked, Holds, Spells, Owned;
      var call := new Call(id, left, result, p, slot, load, values);
      pool := pool + {call};
      HousedMore(live, arena.base, arena.elem, queue, call);
      StockedMore(blocks, queue, heap.blocks, call);
      ghost var q := queue;
      Enqueue(call);
      ItemsSnoc(q, call);
    }
  }

  lemma LiveBound(arena: FixedArena)
    requires arena.Valid()
    ensures |arena.live| <= arena.capacity
  {
  }

  lemma ServeNone()
    ensures Serve([]) == [] && SlotsOf([]) == {} && ItemsOf([]) == [] && BlocksOf([]) == {}
  {
  }

  lemma ItemsSnoc(q: seq<Call>, c: Call)
    ensures ItemsOf(q + [c]) == ItemsOf(q) + [ItemOf(c)]
  {
    assert (q + [c])[..|q|] == q;
  }

  // What a turn does to slots and blocks held by others than the queued calls: nothing.
  lemma TurnSlots(live: set<nat>, q: seq<Call>)
    requires q != []
    ensures (live - {q[0].slot}) - SlotsOf(q[1..]) == live - SlotsOf(q)
    ensures live - SlotsOf(q[1..] + [q[0]]) == live - SlotsOf(q)
  {
    SlotsCons(q);
    SlotsRotate(q);
    hide SlotsOf;
  }

  lemma TurnBlocks(blocks: Blocks, q: seq<Call>)
    requires q != []
    ensures (blocks - Owned(q[0].load)) - BlocksOf(q[1..]) == blocks - BlocksOf(q)
    ensures blocks - BlocksOf(q[1..] + [q[0]]) == blocks - BlocksOf(q)
  {
    BlocksCons(q);
    BlocksSnoc(q[1..], q[0]);
    hide BlocksOf, Owned;
  }

  // What a turn does to the answers still to come, and to the resumes left.
  lemma TurnItems(first: Item, others: seq<Item>)
    ensures Serve([first] + others)
         == if first.left == 0 then [Answer(first)] + Serve(others) else Serve(others + [Again(first)])
    ensures first.left == 0 ==> Weight(others) < Weight([first] + others)
    ensures first.left > 0 ==> Weight(others + [Again(first)]) < Weight([first] + others)
  {
    hide Serve, Weight;
    var q := [first] + others;
    assert q[1..] == others;
    ServeStep(q);
    WeightCons(q);
    if first.left > 0 { WeightRequeue(q); }
  }
}
