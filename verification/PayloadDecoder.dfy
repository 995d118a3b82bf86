/** The sentinel-terminated decoder of src/payload.c and the memory it owns. */
module PayloadDecoder {
  import opened Options
  import opened Words
  import opened Payload

  const TYPE_SENTINEL: byte := 255

  /** malloc, realloc and free: `grants` decides which calls succeed, 0 is the null pointer. */
  class Heap {
    const grants: nat -> bool
    var calls: nat
    var fence: nat
    var blocks: map<nat, seq<byte>>

    ghost predicate Valid()
      reads this
    {
      0 < fence && 0 !in blocks && forall b :: b in blocks ==> b < fence
    }

    // Every call from this one on has succeeded.
    ghost predicate Granted(from: nat)
      reads this
    {
      forall n :: from <= n < calls ==> grants(n)
    }

    constructor (grants: nat -> bool)
      ensures Valid() && blocks == map[] && this.grants == grants
    {
      this.grants, calls, fence, blocks := grants, 0, 1, map[];
    }

    // A fresh block, filled with the given bytes.
    method Alloc(contents: seq<byte>) returns (id: nat)
      requires Valid()
      modifies this
      ensures Valid()
      ensures id == 0 ==> blocks == old(blocks)
      ensures id != 0 ==> id !in old(blocks) && blocks == old(blocks)[id := contents]
      ensures calls == old(calls) + 1 && (id != 0 <==> grants(old(calls)))
    {
      id := 0;
      if grants(calls) {
        id := fence;
        blocks := blocks[id := contents];
        fence := fence + 1;
      }
      calls := calls + 1;
    }

    method Realloc(block: nat) returns (id: nat)
      requires Valid() && (block == 0 || block in blocks)
      modifies this
      ensures Valid()
      ensures id == 0 ==> blocks == old(blocks)
      ensures id != 0 ==> id !in old(blocks) && blocks == (old(blocks) - {block})[id := []]
      ensures calls == old(calls) + 1 && (id != 0 <==> grants(old(calls)))
    {
      id := 0;
      if grants(calls) {
        id := fence;
        blocks := (blocks - {block})[id := []];
        fence := fence + 1;
      }
      calls := calls + 1;
    }

    // Only a live block, or null, may be freed.
    method Free(block: nat)
      requires Valid() && (block == 0 || block in blocks)
      modifies this
      ensures Valid() && blocks == old(blocks) - {block} && calls == old(calls)
    {
      blocks := blocks - {block};
    }
  }

  // `wirecall_value`: which fields mean something depends on the type.
  datatype Cell = Cell(tag: byte, flag: bool, bits: bv64, block: nat, len: nat)

  predicate IsText(c: Cell) { c.tag == TYPE_BYTES || c.tag == TYPE_STRING }

  predicate Owns(c: Cell) { IsText(c) && c.block != 0 }

  ghost predicate Denotes(blocks: map<nat, seq<byte>>, c: Cell, v: Value) {
    && c.tag == Tag(v)
    && match v
       case Null => true
       case Bool(flag) => c.flag == flag
       case I64(bits) => c.bits == bits
       case U64(bits) => c.bits == bits
       case F64(bits) => c.bits == bits
       case Bytes(data) =>
         c.len == |data| && (if data == [] then c.block == 0 else c.block in blocks && blocks[c.block] == data)
       case Str(data) => c.len == |data| && c.block in blocks && blocks[c.block] == data + [0]
  }

  ghost predicate DenotesAll(blocks: map<nat, seq<byte>>, cells: seq<Cell>, vs: seq<Value>) {
    |cells| == |vs| && forall i :: 0 <= i < |vs| ==> Denotes(blocks, cells[i], vs[i])
  }

  // The blocks the cells own ...
  ghost function Footprint(cells: seq<Cell>): set<nat> {
    if cells == [] then {}
    else
      var last := cells[|cells| - 1];
      Footprint(cells[..|cells| - 1]) + if Owns(last) then {last.block} else {}
  }

  // ... each owned by one cell only.
  ghost predicate Separate(cells: seq<Cell>) {
    cells != [] ==>
      var init, last := cells[..|cells| - 1], cells[|cells| - 1];
      Separate(init) && (Owns(last) ==> last.block !in Footprint(init))
  }

  lemma {:induction false} PrefixOwned(cells: seq<Cell>, i: nat)
    requires i <= |cells| && Separate(cells)
    ensures Separate(cells[..i]) && Footprint(cells[..i]) <= Footprint(cells)
  {
    if i == |cells| {
      assert cells[..i] == cells;
    } else {
      var init := cells[..|cells| - 1];
      PrefixOwned(init, i);
      assert init[..i] == cells[..i];
    }
  }

  lemma {:induction false} FootprintAt(cells: seq<Cell>, i: nat)
    requires i < |cells| && Owns(cells[i])
    ensures cells[i].block in Footprint(cells)
  {
    if i < |cells| - 1 {
      FootprintAt(cells[..|cells| - 1], i);
    }
  }

  lemma FootprintNext(cells: seq<Cell>, i: nat)
    requires i < |cells| && Separate(cells)
    ensures Footprint(cells[..i + 1]) == Footprint(cells[..i]) + if Owns(cells[i]) then {cells[i].block} else {}
    ensures Owns(cells[i]) ==> cells[i].block in Footprint(cells) && cells[i].block !in Footprint(cells[..i])
  {
    assert cells[..i + 1][..i] == cells[..i];
    PrefixOwned(cells, i + 1);
  }

  // ---------- freeing ----------

  // `values_cleanup`
  method Cleanup(heap: Heap, values: array<Cell>, count: nat)
    requires heap.Valid() && count <= values.Length
    requires Separate(values[..count]) && Footprint(values[..count]) <= heap.blocks.Keys
    modifies heap
    ensures heap.Valid() && heap.blocks == old(heap.blocks) - Footprint(values[..count])
    ensures heap.calls == old(heap.calls)
  {
    assert Footprint(values[..0]) == {};
    hide Footprint, Separate;
    var i := 0;
    while i < count
      invariant 0 <= i <= count && heap.Valid() && heap.calls == old(heap.calls)
      invariant heap.blocks == old(heap.blocks) - Footprint(values[..i])
    {
      FootprintNext(values[..count], i);
      assert values[..count][..i] == values[..i] && values[..count][..i + 1] == values[..i + 1];
      if values[i].tag == TYPE_BYTES {
        heap.Free(values[i].block);
      } else if values[i].tag == TYPE_STRING {
        heap.Free(values[i].block);
      }
      i := i + 1;
    }
  }

  // The sentinel is at `count`, inside the array, and nowhere before.
  ghost predicate Terminated(cells: seq<Cell>, count: nat) {
    count < |cells| && cells[count].tag == TYPE_SENTINEL && forall i :: 0 <= i < count ==> cells[i].tag != TYPE_SENTINEL
  }

  // `wirecall_values_free`: the scan finds the count the decoder had; 0 is a null `values`.
  method ValuesFree(heap: Heap, values: array<Cell>, block: nat, ghost count: nat) returns (scanned: nat)
    requires heap.Valid()
    requires if block == 0 then count == 0
             else Terminated(values[..], count) && block in heap.blocks && Separate(values[..count])
                  && Footprint(values[..count]) <= heap.blocks.Keys - {block}
    modifies heap
    ensures heap.Valid() && scanned == count && heap.calls == old(heap.calls)
    ensures heap.blocks == old(heap.blocks) - (if block == 0 then {} else Footprint(values[..count]) + {block})
  {
    scanned := 0;
    if block != 0 {
      while values[scanned].tag != TYPE_SENTINEL
        invariant 0 <= scanned <= count
        decreases count - scanned
      {
        assert values[..][scanned] == values[scanned];
        scanned := scanned + 1;
      }
      assert values[..][scanned] == values[scanned];
      Cleanup(heap, values, scanned);
    }
    heap.Free(block);
  }

  // ---------- decoding ----------

  // Beyond what was live in `base`: the blocks the cells own and, unless null, the array of cells.
  ghost predicate Holdings(blocks: map<nat, seq<byte>>, base: map<nat, seq<byte>>, owned: set<nat>, block: nat) {
    && 0 !in blocks && base.Keys !! owned && block !in owned && block !in base
    && blocks.Keys == base.Keys + owned + (if block == 0 then {} else {block})
    && forall b :: b in base ==> b in blocks && blocks[b] == base[b]
  }

  // The decoder has turned a prefix of its input into vs.
  ghost predicate Loaded(blocks: map<nat, seq<byte>>, base: map<nat, seq<byte>>, cells: seq<Cell>, block: nat,
                         count: nat, vs: seq<Value>) {
    && count <= |cells| && (if block == 0 then count == 0 else Terminated(cells, count))
    && DenotesAll(blocks, cells[..count], vs)
    && Separate(cells[..count])
    && Holdings(blocks, base, Footprint(cells[..count]), block)
  }

  lemma Released(blocks: map<nat, seq<byte>>, base: map<nat, seq<byte>>, owned: set<nat>, block: nat)
    requires Holdings(blocks, base, owned, block)
    ensures blocks - owned - {block} == base
    ensures blocks - (owned + {block}) == base
    ensures block == 0 && owned == {} ==> blocks == base
  {
    assert (blocks - owned - {block}).Keys == base.Keys;
    assert (blocks - (owned + {block})).Keys == base.Keys;
  }

  lemma StillDenotes(blocks: map<nat, seq<byte>>, after: map<nat, seq<byte>>, cells: seq<Cell>, vs: seq<Value>)
    requires DenotesAll(blocks, cells, vs) && 0 !in blocks
    requires forall b :: b in Footprint(cells) && b in blocks ==> b in after && after[b] == blocks[b]
    ensures DenotesAll(after, cells, vs)
  {
    forall i | 0 <= i < |vs| ensures Denotes(after, cells[i], vs[i]) {
      assert Denotes(blocks, cells[i], vs[i]);
      if Owns(cells[i]) { FootprintAt(cells, i); }
    }
  }

  lemma GrowLoaded(blocks: map<nat, seq<byte>>, base: map<nat, seq<byte>>, cells: seq<Cell>, block: nat, count: nat,
                   vs: seq<Value>, next: nat, wider: seq<Cell>)
    requires Loaded(blocks, base, cells, block, count, vs) && next != 0 && next !in blocks
    requires count < |wider| && wider[..count] == cells[..count] && wider[count].tag == TYPE_SENTINEL
    ensures Loaded((blocks - {block})[next := []], base, wider, next, count, vs)
  {
    var after := (blocks - {block})[next := []];
    var owned := Footprint(cells[..count]);
    hide Separate, Footprint;
    StillDenotes(blocks, after, cells[..count], vs);
    GrowHoldings(blocks, base, owned, block, next);
    NoSentinel(after, wider, count, vs);
  }

  lemma NoSentinel(blocks: map<nat, seq<byte>>, cells: seq<Cell>, count: nat, vs: seq<Value>)
    requires count < |cells| && cells[count].tag == TYPE_SENTINEL && DenotesAll(blocks, cells[..count], vs)
    ensures Terminated(cells, count)
  {
    forall i | 0 <= i < count ensures cells[i].tag != TYPE_SENTINEL {
      assert Denotes(blocks, cells[..count][i], vs[i]);
    }
  }

  lemma GrowHoldings(blocks: map<nat, seq<byte>>, base: map<nat, seq<byte>>, owned: set<nat>, block: nat, next: nat)
    requires Holdings(blocks, base, owned, block) && next != 0 && next !in blocks
    ensures Holdings((blocks - {block})[next := []], base, owned, next)
  {
  }

  // What decoding one value does to the heap.
  ghost predicate Stored(before: map<nat, seq<byte>>, after: map<nat, seq<byte>>, c: Cell, v: Value) {
    && Denotes(after, c, v)
    && (if Owns(c) then c.block !in before && c.block in after && after == before[c.block := after[c.block]]
        else after == before)
  }

  lemma StoreLoaded(blocks: map<nat, seq<byte>>, after: map<nat, seq<byte>>, base: map<nat, seq<byte>>,
                    cells: seq<Cell>, block: nat, count: nat, vs: seq<Value>, c: Cell, v: Value, longer: seq<Cell>)
    requires Loaded(blocks, base, cells, block, count, vs) && Stored(blocks, after, c, v) && block != 0
    requires count + 1 < |longer| && longer[..count] == cells[..count] && longer[count] == c
    requires longer[count + 1].tag == TYPE_SENTINEL
    ensures Loaded(after, base, longer, block, count + 1, vs + [v])
  {
    var done := cells[..count];
    var all := longer[..count + 1];
    assert all == done + [c];
    FootprintSnoc(done, c);
    StoreHoldings(blocks, after, base, Footprint(done), block, c, v);
    OwnedLive(blocks, base, Footprint(done), block, c, after, v);
    StillDenotes(blocks, after, done, vs);
    hide Separate, Footprint, Holdings, Denotes;
    assert DenotesAll(after, all, vs + [v]);
    NoSentinel(after, longer, count + 1, vs + [v]);
  }

  lemma FootprintSnoc(cells: seq<Cell>, c: Cell)
    ensures Footprint(cells + [c]) == Footprint(cells) + if Owns(c) then {c.block} else {}
    ensures Separate(cells + [c]) <==> Separate(cells) && (Owns(c) ==> c.block !in Footprint(cells))
  {
    assert (cells + [c])[..|cells|] == cells;
  }

  lemma OwnedLive(blocks: map<nat, seq<byte>>, base: map<nat, seq<byte>>, owned: set<nat>, block: nat, c: Cell,
                  after: map<nat, seq<byte>>, v: Value)
    requires Holdings(blocks, base, owned, block) && Stored(blocks, after, c, v)
    ensures Owns(c) ==> c.block !in owned
    ensures forall b :: b in owned ==> b in blocks && b in after && after[b] == blocks[b]
  {
    hide Denotes;
  }

  lemma StoreHoldings(blocks: map<nat, seq<byte>>, after: map<nat, seq<byte>>, base: map<nat, seq<byte>>,
                      owned: set<nat>, block: nat, c: Cell, v: Value)
    requires Holdings(blocks, base, owned, block) && Stored(blocks, after, c, v)
    ensures Holdings(after, base, owned + (if Owns(c) then {c.block} else {}), block)
  {
    hide Denotes;
  }

  // The value at `off`.
  ghost function ItemAt(data: seq<byte>, off: nat): Item
    requires off < |data|
  {
    DecodeOne(data[off..])
  }

  // One pass of the switch: a cell for the value at `off`, with its own copy of bytes and strings.
  method DecodeItem(heap: Heap, data: seq<byte>, off: nat) returns (ok: bool, cell: Cell, next: nat)
    requires heap.Valid() && off < |data|
    modifies heap
    ensures heap.Valid()
    ensures ok ==> ItemAt(data, off).Item? && next == off + ItemAt(data, off).used
    ensures ok ==> Stored(old(heap.blocks), heap.blocks, cell, ItemAt(data, off).value)
    ensures !ok ==> heap.blocks == old(heap.blocks)
    ensures old(heap.calls) <= heap.calls && ok == (ItemAt(data, off).Item? && heap.Granted(old(heap.calls)))
  {
    ItemScalar(data, off);
    hide GetU64, ItemAt;
    cell := Cell(data[off], false, 0, 0, 0);
    ok, next := true, off + 1;
    if cell.tag == TYPE_NULL {
    } else if cell.tag == TYPE_BOOL {
      if next + 1 > |data| || (data[next] != 0 && data[next] != 1) { return false, cell, next; }
      cell := cell.(flag := data[next] != 0);
      next := next + 1;
    } else if cell.tag == TYPE_I64 || cell.tag == TYPE_U64 || cell.tag == TYPE_F64 {
      if next + 8 > |data| { return false, cell, next; }
      var bits := ReadU64(data, next);
      cell := cell.(bits := bits);
      next := next + 8;
    } else if cell.tag == TYPE_BYTES || cell.tag == TYPE_STRING {
      ok, cell, next := CopyText(heap, data, off);
    } else {
      ok := false;
    }
  }

  method CopyText(heap: Heap, data: seq<byte>, off: nat) returns (ok: bool, cell: Cell, next: nat)
    requires heap.Valid() && off < |data| && (data[off] == TYPE_BYTES || data[off] == TYPE_STRING)
    modifies heap
    ensures heap.Valid()
    ensures ok ==> ItemAt(data, off).Item? && next == off + ItemAt(data, off).used
    ensures ok ==> Stored(old(heap.blocks), heap.blocks, cell, ItemAt(data, off).value)
    ensures !ok ==> heap.blocks == old(heap.blocks)
    ensures old(heap.calls) <= heap.calls && ok == (ItemAt(data, off).Item? && heap.Granted(old(heap.calls)))
  {
    hide ItemAt, Stored;
    var found, text := FindText(data, off);
    cell, next := Cell(data[off], false, 0, 0, 0), off + 5 + |text|;
    ok := false;
    if found { ok, cell := AllocText(heap, data[off], text); }
  }

  // The bytes of the text at `off`, unless the length or the bytes are cut short.
  method FindText(data: seq<byte>, off: nat) returns (found: bool, text: seq<byte>)
    requires off < |data| && (data[off] == TYPE_BYTES || data[off] == TYPE_STRING)
    ensures found == ItemAt(data, off).Item?
    ensures found ==> ItemAt(data, off) == Item(Text(data[off], text), 5 + |text|)
  {
    ItemText(data, off);
    hide ItemAt, GetU32, Nat32;
    found, text := false, [];
    if off + 5 <= |data| {
      var length := Nat32(GetU32(data[off + 1..off + 5]));
      if off + 5 + length <= |data| {
        found, text := true, data[off + 5..off + 5 + length];
      }
    }
  }

  // The cell's own copy of a text; strings get a terminating zero.
  method AllocText(heap: Heap, tag: byte, text: seq<byte>) returns (ok: bool, cell: Cell)
    requires heap.Valid() && (tag == TYPE_BYTES || tag == TYPE_STRING)
    modifies heap
    ensures heap.Valid()
    ensures ok ==> Stored(old(heap.blocks), heap.blocks, cell, Text(tag, text))
    ensures !ok ==> heap.blocks == old(heap.blocks)
    ensures old(heap.calls) <= heap.calls && ok == heap.Granted(old(heap.calls))
  {
    hide Denotes;
    cell := Cell(tag, false, 0, 0, |text|);
    var copy := text + if tag == TYPE_STRING then [0] else [];
    if |copy| > 0 {
      var block := heap.Alloc(copy);
      if block == 0 { return false, cell; }
      cell := cell.(block := block);
    }
    CopyDenotes(heap.blocks, cell, text, copy);
    ok := true;
  }

  lemma CopyDenotes(blocks: map<nat, seq<byte>>, c: Cell, text: seq<byte>, copy: seq<byte>)
    requires IsText(c) && c.len == |text| && copy == text + if c.tag == TYPE_STRING then [0] else []
    requires if copy == [] then c.block == 0 else c.block != 0 && c.block in blocks && blocks[c.block] == copy
    ensures Denotes(blocks, c, Text(c.tag, text)) && (Owns(c) <==> copy != [])
  {
    if c.tag == TYPE_BYTES { assert copy == text; }
  }

  lemma ItemText(data: seq<byte>, off: nat)
    requires off < |data| && (data[off] == TYPE_BYTES || data[off] == TYPE_STRING)
    ensures |data| < off + 5 ==> ItemAt(data, off) == Malformed
    ensures off + 5 <= |data| ==>
              var n := Nat32(GetU32(data[off + 1..off + 5]));
              ItemAt(data, off) == if |data| < off + 5 + n then Malformed
                                   else Item(Text(data[off], data[off + 5..off + 5 + n]), 5 + n)
  {
    hide GetU32, Nat32;
    var s := data[off..];
    if 5 <= |s| {
      assert s[1..5] == data[off + 1..off + 5];
      var n := Nat32(GetU32(s[1..5]));
      if n <= |s| - 5 { assert s[5..][..n] == data[off + 5..off + 5 + n]; }
    }
  }

  lemma ItemScalar(data: seq<byte>, off: nat)
    requires off < |data|
    ensures data[off] == TYPE_NULL ==> ItemAt(data, off) == Item(Null, 1)
    ensures data[off] == TYPE_BOOL ==>
              ItemAt(data, off) == if |data| < off + 2 || (data[off + 1] != 0 && data[off + 1] != 1) then Malformed
                                   else Item(Bool(data[off + 1] != 0), 2)
    ensures (data[off] == TYPE_I64 || data[off] == TYPE_U64 || data[off] == TYPE_F64) ==>
              ItemAt(data, off) == if |data| < off + 9 then Malformed
                                   else Item(Word(data[off], GetU64(data[off + 1..off + 9])), 9)
    ensures !(data[off] in {TYPE_NULL, TYPE_BOOL, TYPE_I64, TYPE_U64, TYPE_F64, TYPE_BYTES, TYPE_STRING}) ==>
              ItemAt(data, off) == Malformed
  {
    hide GetU64, GetU32, Nat32, DecodeText;
    var s := data[off..];
    if 9 <= |s| { assert s[1..9] == data[off + 1..off + 9]; }
  }

  lemma ItemUsed(data: seq<byte>, off: nat)
    requires off < |data| && ItemAt(data, off).Item?
    ensures 0 < ItemAt(data, off).used <= |data| - off
  {
    hide DecodeOne;
    DecodeOneUsed(data[off..]);
  }

  // Decoding item by item.
  lemma DecodeStep(data: seq<byte>, off: nat)
    requires off < |data|
    ensures var i := ItemAt(data, off);
            Decode(data[off..]) ==
              if i.Malformed? then None
              else match Decode(data[off + i.used..])
                case None => None
                case Some(vs) => Some([i.value] + vs)
  {
    hide DecodeOne;
    var i := ItemAt(data, off);
    if i.Item? {
      ItemUsed(data, off);
      assert data[off..][i.used..] == data[off + i.used..];
    }
  }

  // What has been decoded, followed by what the rest decodes to.
  ghost function Continued(vs: seq<Value>, rest: Option<seq<Value>>): Option<seq<Value>> {
    match rest case None => None case Some(more) => Some(vs + more)
  }

  lemma ContinuedStep(data: seq<byte>, off: nat, vs: seq<Value>)
    requires off < |data|
    ensures var i := ItemAt(data, off);
            Continued(vs, Decode(data[off..])) ==
              if i.Malformed? then None else Continued(vs + [i.value], Decode(data[off + i.used..]))
  {
    hide ItemAt, DecodeOne, Decode;
    DecodeStep(data, off);
    var i := ItemAt(data, off);
    if i.Item? { ItemUsed(data, off); }
    if i.Item? && Decode(data[off + i.used..]).Some? {
      var more := Decode(data[off + i.used..]).value;
      assert vs + ([i.value] + more) == vs + [i.value] + more;
    }
  }

  lemma LoadedBounds(blocks: map<nat, seq<byte>>, base: map<nat, seq<byte>>, cells: seq<Cell>, block: nat, count: nat,
                     vs: seq<Value>)
    requires Loaded(blocks, base, cells, block, count, vs)
    ensures count <= |cells| && (block == 0 || block in blocks)
  {
  }

  method Grow(heap: Heap, values: array<Cell>, block: nat, cap: nat, count: nat,
              ghost base: map<nat, seq<byte>>, ghost vs: seq<Value>)
    returns (wider: array<Cell>, next: nat, nextCap: nat)
    requires heap.Valid() && Loaded(heap.blocks, base, values[..], block, count, vs) && count == cap
    modifies heap
    ensures heap.Valid()
    ensures next != 0 ==> fresh(wider) && count < nextCap && wider.Length == nextCap + 1
    ensures next != 0 ==> Loaded(heap.blocks, base, wider[..], next, count, vs)
    ensures next == 0 ==> heap.blocks == old(heap.blocks)
    ensures heap.calls == old(heap.calls) + 1 && (next != 0 <==> heap.grants(old(heap.calls)))
  {
    hide Loaded;
    ghost var was := values[..];
    LoadedBounds(heap.blocks, base, was, block, count, vs);
    wider := values;
    nextCap := if cap != 0 then cap * 2 else 4;
    next := heap.Realloc(block);
    if next != 0 {
      wider := new Cell[nextCap + 1];
      forall i | 0 <= i < count { wider[i] := values[i]; }
      wider[count] := wider[count].(tag := TYPE_SENTINEL);
      assert wider[..][..count] == was[..count];
      GrowLoaded(old(heap.blocks), base, was, block, count, vs, next, wider[..]);
    }
  }

  // `wirecall_payload_decode`: on success the cells spell the decoded values and end in the sentinel; on
  // failure every block is gone again. It fails exactly on malformed input or when a request of its own is refused.
  method DecodePayload(heap: Heap, data: seq<byte>)
    returns (ok: bool, values: array<Cell>, block: nat, count: nat, ghost vs: seq<Value>)
    requires heap.Valid()
    modifies heap
    ensures heap.Valid()
    ensures ok ==> Decode(data) == Some(vs) && count == |vs|
    ensures ok ==> Loaded(heap.blocks, old(heap.blocks), values[..], block, count, vs)
    ensures !ok ==> heap.blocks == old(heap.blocks)
    ensures old(heap.calls) <= heap.calls && ok == (Decode(data).Some? && heap.Granted(old(heap.calls)))
  {
    hide ItemAt, DecodeOne, Decode, Loaded;
    ghost var base := heap.blocks;
    values := new Cell[0];
    block, count, vs := 0, 0, [];
    var cap, off := 0, 0;
    LoadedNothing(heap.blocks, values[..]);
    assert data[0..] == data;
    assert Continued([], Decode(data)) == Decode(data) by { WholeIsContinued(data); }
    while off < |data|
      invariant 0 <= off <= |data| && heap.Valid() && count <= cap
      invariant old(heap.calls) <= heap.calls && heap.Granted(old(heap.calls))
      invariant block != 0 ==> values.Length == cap + 1 && fresh(values)
      invariant block == 0 ==> cap == 0
      invariant count == |vs| && Loaded(heap.blocks, base, values[..], block, count, vs)
      invariant Continued(vs, Decode(data[off..])) == Decode(data)
      decreases |data| - off
    {
      if count == cap {
        var wider, next, nextCap := Grow(heap, values, block, cap, count, base, vs);
        if next == 0 {
          Discard(heap, values, block, count, base, vs);
          ok := false;
          return;
        }
        values, block, cap := wider, next, nextCap;
      }
      ContinuedStep(data, off, vs);
      ghost var before := heap.blocks;
      var fine, cell, next := DecodeItem(heap, data, off);
      if !fine {
        Discard(heap, values, block, count, base, vs);
        ok := false;
        return;
      }
      ghost var was := values[..];
      values[count] := cell;
      values[count + 1] := values[count + 1].(tag := TYPE_SENTINEL);
      assert values[..][..count] == was[..count];
      ItemUsed(data, off);
      ghost var v := ItemAt(data, off).value;
      StoreLoaded(before, heap.blocks, base, was, block, count, vs, cell, v, values[..]);
      off, count, vs := next, count + 1, vs + [v];
    }
    assert data[off..] == [];
    assert Decode([]) == Some([]) by { WholeIsContinued([]); }
    assert vs + [] == vs;
    ok := true;
  }

  lemma WholeIsContinued(s: seq<byte>)
    ensures Continued([], Decode(s)) == Decode(s) && Decode([]) == Some([])
  {
    if Decode(s).Some? { assert [] + Decode(s).value == Decode(s).value; }
  }

  lemma LoadedNothing(blocks: map<nat, seq<byte>>, cells: seq<Cell>)
    requires 0 !in blocks && cells == []
    ensures Loaded(blocks, blocks, cells, 0, 0, [])
  {
    assert cells[..0] == [];
  }

  // The `malformed` exit.
  method Discard(heap: Heap, values: array<Cell>, block: nat, count: nat, ghost base: map<nat, seq<byte>>,
                 ghost vs: seq<Value>)
    requires heap.Valid() && Loaded(heap.blocks, base, values[..], block, count, vs)
    modifies heap
    ensures heap.Valid() && heap.blocks == base && heap.calls == old(heap.calls)
  {
    hide DenotesAll, Separate, Footprint;
    assert values[..][..count] == values[..count];
    Released(heap.blocks, base, Footprint(values[..count]), block);
    Cleanup(heap, values, count);
    heap.Free(block);
  }

  // `handle_sync_call`: decode, run the handler, free. No block is left, whatever the input.
  method DecodeAndFree(heap: Heap, data: seq<byte>)
    requires heap.Valid()
    modifies heap
    ensures heap.Valid() && heap.blocks == old(heap.blocks)
  {
    var ok, values, block, count, vs := DecodePayload(heap, data);
    if ok {
      hide DenotesAll, Separate, Footprint;
      assert values[..][..count] == values[..count];
      Released(heap.blocks, old(heap.blocks), Footprint(values[..count]), block);
      NullOwnsNothing(values[..count]);
      var scanned := ValuesFree(heap, values, block, count);
    }
  }

  lemma NullOwnsNothing(cells: seq<Cell>)
    ensures cells == [] ==> Footprint(cells) == {}
  {
  }
}
