/** The private part of a mutation: the loops of `routes_add_route` and `wirecall_routes_remove` that
    copy the old chain, and of `route_chain_free` that undoes an unfinished copy. */
module RouteCopy {
  import opened RouteTable

  // The allocator's answers: at each call the next address, or none.
  predicate Usable(heap: map<Addr, Node>, hints: seq<Addr>, used: nat) {
    used < |hints| && hints[used] != NULL && hints[used] !in heap
  }

  // The allocator has n nodes to give: addresses that are free and differ from each other.
  predicate Supplies(heap0: map<Addr, Node>, hints: seq<Addr>, n: nat) {
    && n <= |hints|
    && (forall i :: 0 <= i < n ==> hints[i] != NULL && hints[i] !in heap0)
    && (forall i, j :: 0 <= i < j < n ==> hints[i] != hints[j])
  }

  lemma Starves(heap0: map<Addr, Node>, heap: map<Addr, Node>, hints: seq<Addr>, used: nat, pairs: Pairs, tok: Token,
                n: nat)
    requires used <= |hints| && Built(heap0, heap, hints[..used], pairs, tok)
    requires !Usable(heap, hints, used) && used < n
    ensures !Supplies(heap0, hints, n)
  {
    if used < |hints| && hints[used] in heap && hints[used] !in heap0 {
      assert hints[used] in hints[..used];
      var i :| 0 <= i < used && hints[i] == hints[used];
    }
  }

  lemma Suffices(heap0: map<Addr, Node>, heap: map<Addr, Node>, hints: seq<Addr>, used: nat, pairs: Pairs, tok: Token)
    requires used <= |hints| && Built(heap0, heap, hints[..used], pairs, tok)
    ensures used == |pairs| && Supplies(heap0, hints, used)
  {
    forall i | 0 <= i < used ensures hints[i] != NULL && hints[i] !in heap0 { assert hints[..used][i] == hints[i]; }
    forall i, j | 0 <= i < j < used ensures hints[i] != hints[j] {
      assert hints[..used][i] == hints[i] && hints[..used][j] == hints[j];
    }
  }

  lemma {:induction false} RebuiltGrows(op: Op, seen: Pairs, i: nat)
    requires i <= |seen|
    ensures |Rebuilt(op, seen[..i])| <= |Rebuilt(op, seen)|
    decreases |seen| - i
  {
    if i == |seen| {
      assert seen[..i] == seen;
    } else {
      RebuiltSnoc(op, seen[..i], seen[i]);
      assert seen[..i + 1] == seen[..i] + [seen[i]];
      RebuiltGrows(op, seen, i + 1);
    }
  }

  lemma {:induction false} RebuiltSnoc(op: Op, ps: Pairs, x: (Pid, Reg))
    ensures Rebuilt(op, ps + [x]) == Rebuilt(op, ps) + (if x.0 == op.pid then [] else [x])
  {
    WithoutSnoc(ps, op.pid, x);
  }

  lemma {:induction false} WithoutSnoc(ps: Pairs, pid: Pid, x: (Pid, Reg))
    ensures Without(ps + [x], pid) == Without(ps, pid) + (if x.0 == pid then [] else [x])
  {
    if ps == [] {
      assert ps + [x] == [x];
      assert [x][1..] == [];
    } else {
      WithoutSnoc(ps[1..], pid, x);
      assert (ps + [x])[1..] == ps[1..] + [x];
    }
  }

  lemma {:induction false} FindSnoc(ps: Pairs, pid: Pid, x: (Pid, Reg))
    ensures Find(ps + [x], pid).Some? == (Find(ps, pid).Some? || x.0 == pid)
  {
    if ps == [] {
      assert ps + [x] == [x];
    } else {
      FindSnoc(ps[1..], pid, x);
      assert (ps + [x])[1..] == ps[1..] + [x];
    }
  }

  // `heap1` is `heap` with node `a` allocated and linked behind the last of `addrs`.
  ghost predicate Linked(heap: map<Addr, Node>, heap1: map<Addr, Node>, addrs: seq<Addr>, a: Addr, node: Node) {
    && heap1.Keys == heap.Keys + {a}
    && heap1[a] == node
    && (forall b :: b in heap && (addrs == [] || b != addrs[|addrs| - 1]) ==> heap1[b] == heap[b])
    && (addrs != [] && addrs[|addrs| - 1] in heap ==>
          heap1[addrs[|addrs| - 1]] == heap[addrs[|addrs| - 1]].(next := a))
  }

  lemma Extend(heap0: map<Addr, Node>, heap: map<Addr, Node>, addrs: seq<Addr>, pairs: Pairs, tok: Token, a: Addr,
               x: (Pid, Reg), heap1: map<Addr, Node>)
    requires Built(heap0, heap, addrs, pairs, tok) && a != NULL && a !in heap
    requires Linked(heap, heap1, addrs, a, Node(x.0, x.1, NULL, tok, |addrs|))
    ensures Built(heap0, heap1, addrs + [a], pairs + [x], tok)
  {
    var n := |addrs|;
    var addrs1, pairs1 := addrs + [a], pairs + [x];
    ExtendAddrs(heap0, heap, addrs, pairs, tok, a, heap1);
    OwnAddrs(heap0, heap, addrs, pairs, tok);
    forall i | 0 <= i <= n ensures BuiltAt(heap1, addrs1, pairs1, tok, i) {
      if i < n { assert BuiltAt(heap, addrs, pairs, tok, i); }
    }
  }

  lemma ExtendAddrs(heap0: map<Addr, Node>, heap: map<Addr, Node>, addrs: seq<Addr>, pairs: Pairs, tok: Token,
                    a: Addr, heap1: map<Addr, Node>)
    requires Built(heap0, heap, addrs, pairs, tok) && a != NULL && a !in heap && heap1.Keys == heap.Keys + {a}
    ensures var addrs1 := addrs + [a];
            && (forall i :: 0 <= i < |addrs1| ==> addrs1[i] != NULL && addrs1[i] !in heap0)
            && (forall i, j :: 0 <= i < j < |addrs1| ==> addrs1[i] != addrs1[j])
            && (forall b :: b in heap1 <==> b in heap0 || b in addrs1)
  {
    OwnAddrs(heap0, heap, addrs, pairs, tok);
    assert forall b :: b in addrs + [a] <==> b in addrs || b == a;
  }

  lemma OwnAddrs(heap0: map<Addr, Node>, heap: map<Addr, Node>, addrs: seq<Addr>, pairs: Pairs, tok: Token)
    requires Built(heap0, heap, addrs, pairs, tok)
    ensures forall i :: 0 <= i < |addrs| ==> addrs[i] in heap && addrs[i] !in heap0
  {
    forall i | 0 <= i < |addrs| ensures addrs[i] in heap { assert addrs[i] in addrs; }
  }

  ghost function Elems(addrs: seq<Addr>, i: nat): set<Addr>
    requires i <= |addrs|
  {
    set j | 0 <= j < i :: addrs[j]
  }

  // `route_chain_free` of a chain nobody else has seen.
  method FreePrivate(heap0: map<Addr, Node>, heap: map<Addr, Node>, head: Addr, ghost addrs: seq<Addr>,
                     ghost pairs: Pairs, tok: Token)
    returns (heap1: map<Addr, Node>)
    requires Built(heap0, heap, addrs, pairs, tok) && head == PtrAt(addrs, 0)
    ensures heap1 == heap0
  {
    heap1 := heap;
    var p := head;
    ghost var i := 0;
    assert heap - Elems(addrs, 0) == heap;
    while p != NULL
      invariant i <= |addrs| && p == PtrAt(addrs, i)
      invariant heap1 == heap - Elems(addrs, i)
      decreases |addrs| - i
    {
      StillThere(heap0, heap, addrs, pairs, tok, i);
      var next := heap1[p].next;
      heap1 := heap1 - {p};
      p := next;
      i := i + 1;
    }
    AllGone(heap0, heap, addrs, pairs, tok);
  }

  lemma StillThere(heap0: map<Addr, Node>, heap: map<Addr, Node>, addrs: seq<Addr>, pairs: Pairs, tok: Token, i: nat)
    requires Built(heap0, heap, addrs, pairs, tok) && i < |addrs|
    ensures addrs[i] != NULL && addrs[i] in heap && addrs[i] !in Elems(addrs, i)
    ensures heap[addrs[i]].next == PtrAt(addrs, i + 1)
    ensures heap - Elems(addrs, i) - {addrs[i]} == heap - Elems(addrs, i + 1)
  {
    assert BuiltAt(heap, addrs, pairs, tok, i);
    assert Elems(addrs, i + 1) == Elems(addrs, i) + {addrs[i]};
  }

  lemma AllGone(heap0: map<Addr, Node>, heap: map<Addr, Node>, addrs: seq<Addr>, pairs: Pairs, tok: Token)
    requires Built(heap0, heap, addrs, pairs, tok)
    ensures heap - Elems(addrs, |addrs|) == heap0
  {
    assert forall a :: a in addrs <==> a in Elems(addrs, |addrs|);
  }

  lemma BuiltFacts(heap0: map<Addr, Node>, heap: map<Addr, Node>, addrs: seq<Addr>, pairs: Pairs, tok: Token, it: Addr)
    requires Built(heap0, heap, addrs, pairs, tok)
    ensures it in heap0 ==> it in heap && heap[it] == heap0[it]
    ensures addrs != [] ==> addrs[|addrs| - 1] in heap && addrs[|addrs| - 1] != NULL
  {
    if addrs != [] { assert addrs[|addrs| - 1] in addrs; }
  }

  lemma BuiltSize(heap0: map<Addr, Node>, heap: map<Addr, Node>, addrs: seq<Addr>, pairs: Pairs, tok: Token)
    requires Built(heap0, heap, addrs, pairs, tok)
    ensures |addrs| == |pairs|
  {
  }

  // The next node, and where it goes in the list of those taken.
  lemma UsableNow(heap: map<Addr, Node>, hints: seq<Addr>, used: nat)
    requires Usable(heap, hints, used)
    ensures used < |hints| && hints[used] != NULL && hints[used] !in heap
    ensures hints[..used + 1] == hints[..used] + [hints[used]]
  {
  }

  lemma NothingBuilt(heap0: map<Addr, Node>, op: Op, tok: Token)
    ensures Built(heap0, heap0, [], [], tok)
    ensures Rebuilt(op, []) == if op.Add? then [(op.pid, op.reg)] else []
    ensures Find([], op.pid).None?
  {
  }

  // One node of the chain that is read.
  lemma ReadOn(heap: map<Addr, Node>, it: Addr, seen: Pairs, i: nat)
    requires i <= |seen| && Reads(heap, it, seen[i..]) && it != NULL
    ensures i < |seen| && it in heap && (heap[it].pid, heap[it].reg) == seen[i]
    ensures seen[..i + 1] == seen[..i] + [(heap[it].pid, heap[it].reg)] && Reads(heap, heap[it].next, seen[i + 1..])
  {
    assert seen[i..][1..] == seen[i + 1..];
  }

  lemma ReadAll(heap: map<Addr, Node>, seen: Pairs, i: nat)
    requires i <= |seen| && Reads(heap, NULL, seen[i..]) && NULL !in heap
    ensures seen[..i] == seen
  {
  }

  // A node of its own behind the last one, or at the front of an empty chain.
  method Append(heap0: map<Addr, Node>, heap: map<Addr, Node>, head: Addr, tail: Addr, ghost addrs: seq<Addr>,
                ghost pairs: Pairs, tok: Token, a: Addr, made: nat, pid: Pid, reg: Reg)
    returns (heap1: map<Addr, Node>, head1: Addr)
    requires Built(heap0, heap, addrs, pairs, tok) && a != NULL && a !in heap && made == |addrs|
    requires head == PtrAt(addrs, 0) && tail == if addrs == [] then NULL else addrs[|addrs| - 1]
    ensures Built(heap0, heap1, addrs + [a], pairs + [(pid, reg)], tok) && head1 == PtrAt(addrs + [a], 0)
  {
    hide Built;
    BuiltFacts(heap0, heap, addrs, pairs, tok, NULL);
    heap1, head1 := heap, head;
    if tail == NULL { head1 := a; } else { heap1 := heap1[tail := heap1[tail].(next := a)]; }
    heap1 := heap1[a := Node(pid, reg, NULL, tok, made)];
    Extend(heap0, heap, addrs, pairs, tok, a, (pid, reg), heap1);
  }

  // Either a private copy of the old chain without `op.pid` (an add's new node first), with the old
  // heap untouched; or, when the allocator has too few nodes to give, the old heap exactly.
  method CopyChain(heap0: map<Addr, Node>, prev: Addr, ghost seen: Pairs, op: Op, tok: Token, hints: seq<Addr>)
    returns (ok: bool, heap: map<Addr, Node>, head: Addr, found: bool, ghost addrs: seq<Addr>)
    requires NULL !in heap0 && Reads(heap0, prev, seen)
    ensures ok == Supplies(heap0, hints, |Rebuilt(op, seen)|)
    ensures !ok ==> heap == heap0
    ensures ok ==> Built(heap0, heap, addrs, Rebuilt(op, seen), tok) && head == PtrAt(addrs, 0)
    ensures ok ==> found == Find(seen, op.pid).Some?
  {
    hide Built, Find, Rebuilt, Reads, Usable, Supplies;
    NothingBuilt(heap0, op, tok);
    RebuiltGrows(op, seen, 0);
    assert hints[..0] == [] && seen[..0] == [] && seen[0..] == seen;
    heap, head, found, addrs := heap0, NULL, false, [];
    var tail := NULL;
    var used, made := 0, 0;
    if op.Add? {
      if !Usable(heap, hints, used) {
        Starves(heap0, heap, hints, used, [], tok, |Rebuilt(op, seen)|);
        return false, heap0, NULL, false, [];
      }
      UsableNow(heap, hints, used);
      tail := hints[used];
      heap, head := Append(heap0, heap, NULL, NULL, [], [], tok, tail, 0, op.pid, op.reg);
      assert [] + [tail] == [tail];
      addrs, used, made := [tail], 1, 1;
    }
    var it := prev;
    ghost var i := 0;
    assert [] + [(op.pid, if op.Add? then op.reg else 0)] == [(op.pid, if op.Add? then op.reg else 0)];
    while it != NULL
      invariant i <= |seen| && Reads(heap0, it, seen[i..])
      invariant Built(heap0, heap, addrs, Rebuilt(op, seen[..i]), tok)
      invariant head == PtrAt(addrs, 0) && tail == if addrs == [] then NULL else addrs[|addrs| - 1]
      invariant made == |addrs| == used <= |hints| && addrs == hints[..used]
      invariant found == Find(seen[..i], op.pid).Some?
      decreases |seen| - i
    {
      ReadOn(heap0, it, seen, i);
      BuiltFacts(heap0, heap, addrs, Rebuilt(op, seen[..i]), tok, it);
      var n := heap[it];
      RebuiltSnoc(op, seen[..i], (n.pid, n.reg));
      FindSnoc(seen[..i], op.pid, (n.pid, n.reg));
      if n.pid == op.pid {
        assert Rebuilt(op, seen[..i]) + [] == Rebuilt(op, seen[..i]);
        found := true;
      } else {
        if !Usable(heap, hints, used) {
          RebuiltGrows(op, seen, i + 1);
          BuiltSize(heap0, heap, addrs, Rebuilt(op, seen[..i]), tok);
          Starves(heap0, heap, hints, used, Rebuilt(op, seen[..i]), tok, |Rebuilt(op, seen)|);
          heap := FreePrivate(heap0, heap, head, addrs, Rebuilt(op, seen[..i]), tok);
          return false, heap, NULL, found, [];
        }
        UsableNow(heap, hints, used);
        var a := hints[used];
        heap, head := Append(heap0, heap, head, tail, addrs, Rebuilt(op, seen[..i]), tok, a, made, n.pid, n.reg);
        tail, addrs, used, made := a, addrs + [a], used + 1, made + 1;
      }
      it := n.next;
      i := i + 1;
    }
    ReadAll(heap0, seen, i);
    Suffices(heap0, heap, hints, used, Rebuilt(op, seen), tok);
    ok := true;
  }
}
