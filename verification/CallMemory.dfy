/** The memory of scheduled calls: each holds a copy of its payload and its decoded arguments until it is freed,
    while other calls come and go. */
module CallMemory {
  import opened Words
  import opened Payload
  import opened PayloadDecoder

  type Blocks = map<nat, seq<byte>>

  // A submitted call: its payload, the copy of it, the block of its argument array, and the arguments.
  datatype Load = Load(data: seq<byte>, payload: nat, block: nat, args: seq<Cell>)

  function Solid(id: nat): set<nat> { if id == 0 then {} else {id} }

  ghost function Owned(l: Load): set<nat> {
    Solid(l.payload) + Footprint(l.args) + Solid(l.block)
  }

  // The payload is intact, the arguments are what it decodes to, and no block is owned twice.
  ghost predicate Holds(blocks: Blocks, l: Load) {
    && (if l.data == [] then l.payload == 0 else l.payload != 0 && l.payload in blocks && blocks[l.payload] == l.data)
    && Decode(l.data).Some? && DenotesAll(blocks, l.args, Decode(l.data).value)
    && Separate(l.args) && (l.block == 0 ==> l.args == [])
    && Owned(l) <= blocks.Keys && 0 !in blocks
    && l.payload !in Footprint(l.args) && l.block !in Footprint(l.args) && (l.payload == l.block ==> l.payload == 0)
  }

  // The argument array has these arguments, and the sentinel behind them.
  ghost predicate Spells(values: array<Cell>, l: Load)
    reads values
  {
    |l.args| <= values.Length && values[..|l.args|] == l.args && (l.block != 0 ==> Terminated(values[..], |l.args|))
  }

  // ---------- one call ----------

  // Decoding into a heap to which the payload was copied.
  lemma LoadedHolds(base: Blocks, copied: Blocks, blocks: Blocks, cells: seq<Cell>, count: nat, l: Load)
    requires 0 !in base
    requires if l.data == [] then l.payload == 0 && copied == base
             else l.payload != 0 && l.payload !in base && copied == base[l.payload := l.data]
    requires Decode(l.data).Some? && Loaded(blocks, copied, cells, l.block, count, Decode(l.data).value)
    requires l.args == cells[..count]
    ensures Holds(blocks, l) && Owned(l) !! base.Keys && blocks.Keys == base.Keys + Owned(l)
    ensures forall b :: b in base ==> blocks[b] == base[b]
  {
    hide Decode, DenotesAll, Separate, Footprint, Terminated;
  }

  // `wirecall_scheduler_submit` up to the coroutine: copy and decode, or nothing when that fails.
  method Prepare(heap: Heap, data: seq<byte>) returns (ok: bool, ready: bool, values: array<Cell>, l: Load)
    requires heap.Valid()
    modifies heap
    ensures heap.Valid()
    ensures ok == (data == [] || heap.grants(old(heap.calls)))
    ensures !ok ==> heap.blocks == old(heap.blocks)
    ensures ok && !ready ==> heap.blocks == old(heap.blocks)
    ensures ok ==> ready == (Decode(data).Some? && heap.Granted(old(heap.calls)))
    ensures ok && ready ==> Decode(data).Some? && l.data == data && Spells(values, l) && Holds(heap.blocks, l)
    ensures ok && ready ==> Owned(l) !! old(heap.blocks.Keys) && heap.blocks.Keys == old(heap.blocks.Keys) + Owned(l)
    ensures ok && ready ==> forall b :: b in old(heap.blocks) ==> heap.blocks[b] == old(heap.blocks)[b]
  {
    hide Decode, Holds, Owned, DenotesAll, Separate, Footprint, Terminated;
    ok, ready, values, l := true, false, new Cell[0], Load([], 0, 0, []);
    var payload := 0;
    if data != [] {
      payload := heap.Alloc(data);
      if payload == 0 {
        ok := false;
        return;
      }
    }
    ghost var copied := heap.blocks;
    var fine, cells, block, argc, vs := DecodePayload(heap, data);
    if fine {
      assert cells[..][..argc] == cells[..argc];
      ready, values, l := true, cells, Load(data, payload, block, cells[..argc]);
      LoadedHolds(old(heap.blocks), copied, heap.blocks, cells[..], argc, l);
    } else {
      heap.Free(payload);
      assert heap.blocks == old(heap.blocks);
    }
  }

  // `call_free`: the arguments, then the payload; exactly the blocks of this call.
  method Release(heap: Heap, values: array<Cell>, l: Load)
    requires heap.Valid() && Holds(heap.blocks, l) && Spells(values, l)
    modifies heap
    ensures heap.Valid() && heap.blocks == old(heap.blocks) - Owned(l) && heap.calls == old(heap.calls)
  {
    NullOwnsNothing(l.args);
    hide Decode, DenotesAll, Separate, Footprint, Terminated;
    var scanned := ValuesFree(heap, values, l.block, |l.args|);
    heap.Free(l.payload);
  }

  // Nothing that leaves its blocks alone disturbs a call.
  lemma OthersKeep(blocks: Blocks, after: Blocks, l: Load)
    requires Holds(blocks, l) && 0 !in after
    requires forall b :: b in Owned(l) ==> b in after && after[b] == blocks[b]
    ensures Holds(after, l)
  {
    hide Decode, Separate, Footprint, DenotesAll;
    StillDenotes(blocks, after, l.args, Decode(l.data).value);
  }

  lemma HoldsLive(blocks: Blocks, l: Load)
    requires Holds(blocks, l)
    ensures Owned(l) <= blocks.Keys
  {
  }
}
