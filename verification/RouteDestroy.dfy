/** `wirecall_routes_destroy`, called when no other call is running. */
module RouteDestroy {
  import opened Options
  import opened RouteTable
  import opened RouteInvariant
  import opened RouteTheorems
  import opened RouteLeaks

  // The nodes of `s` that are left when the chains of the slots in `done` are freed, and the first
  // `i` nodes of generation `t` as well.
  ghost predicate Left(s: State, done: set<Slot>, t: Token, i: nat, heap: map<Addr, Node>) {
    forall a :: a in s.heap ==>
      var n := s.heap[a];
      if n.tok < |s.gens| && s.gens[n.tok].stage == Published && s.gens[n.tok].slot in done then a !in heap
      else if n.tok == t && n.pos < i then a !in heap
      else a in heap && heap[a] == n
  }

  // The log holds, each once, the earlier finalizations and the registrations of these proc_ids.
  ghost predicate Logs(s: State, freed: set<Pid>, log: seq<Reg>) {
    && (forall j, k :: 0 <= j < k < |log| ==> log[j] != log[k])
    && (forall r :: r in log <==> r in s.log || exists pid :: pid in freed && pid in s.table && s.table[pid] == r)
  }

  ghost predicate Logged(home: Pid -> Slot, s: State, done: set<Slot>, t: Token, i: nat, log: seq<Reg>) {
    Logs(s, FreedPids(home, s, done, t, i), log)
  }

  ghost function FreedPids(home: Pid -> Slot, s: State, done: set<Slot>, t: Token, i: nat): set<Pid> {
    set pid | pid in s.table && Freed(home, s, done, t, i, pid)
  }

  ghost predicate Freed(home: Pid -> Slot, s: State, done: set<Slot>, t: Token, i: nat, pid: Pid) {
    || home(pid) in done
    || (t < |s.gens| && exists j :: 0 <= j < i && j < |s.gens[t].pairs| && s.gens[t].pairs[j].0 == pid)
  }

  ghost predicate Slotted(home: Pid -> Slot, s: State, done: set<Slot>, t: Token) {
    t < |s.gens| && s.gens[t].stage == Published && s.gens[t].slot !in done && |s.gens[t].addrs| == |s.gens[t].pairs|
  }

  // Freeing one more node of a published chain.
  lemma FreeNext(home: Pid -> Slot, s: State, done: set<Slot>, t: Token, i: nat, heap: map<Addr, Node>)
    requires GensOk(home, s.gens) && HeapOk(s.heap, s.gens) && Slotted(home, s, done, t) && i < |s.gens[t].addrs|
    requires Left(s, done, t, i, heap)
    ensures var p := s.gens[t].addrs[i];
            && p in heap
            && heap[p] == Node(s.gens[t].pairs[i].0, s.gens[t].pairs[i].1, PtrAt(s.gens[t].addrs, i + 1), t, i)
            && p != NULL
            && Left(s, done, t, i + 1, heap - {p})
  {
    var g := s.gens[t];
    assert GenOk(home, g) && NodeOk(s.heap, g, t, i);
    forall a | a in s.heap && a != g.addrs[i] && s.heap[a].tok == t ensures s.heap[a].pos != i {
      assert s.gens[s.heap[a].tok].addrs[s.heap[a].pos] == a;
    }
  }

  lemma LogNext(home: Pid -> Slot, s: State, done: set<Slot>, t: Token, i: nat, log: seq<Reg>)
    requires GensOk(home, s.gens) && SlotsOk(s.pages, s.slots, s.cur, s.gens) && TableOk(home, s.table, s.cur, s.gens)
    requires StatusOk(s.table, s.gens, s.status, s.log)
    requires Slotted(home, s, done, t) && i < |s.gens[t].pairs| && Logged(home, s, done, t, i, log)
    ensures Logged(home, s, done, t, i + 1, log + [s.gens[t].pairs[i].1])
  {
    hide TableOk, SlotsOk, StatusOk, Logs;
    var g := s.gens[t];
    var pid := g.pairs[i].0;
    InTable(home, s, t, i);
    assert GenOk(home, g);
    hide GensOk;
    assert !Freed(home, s, done, t, i, pid);
    forall q | q in s.table ensures Freed(home, s, done, t, i + 1, q) <==> Freed(home, s, done, t, i, q) || q == pid {
      if q == pid { assert g.pairs[i].0 == q; }
    }
    assert FreedPids(home, s, done, t, i + 1) == FreedPids(home, s, done, t, i) + {pid};
    LogOne(s, FreedPids(home, s, done, t, i), pid, log);
  }

  lemma LogOne(s: State, freed: set<Pid>, pid: Pid, log: seq<Reg>)
    requires StatusOk(s.table, s.gens, s.status, s.log) && Logs(s, freed, log) && pid in s.table && pid !in freed
    ensures Logs(s, freed + {pid}, log + [s.table[pid]])
  {
    hide StatusOk;
    OnceLive(s, pid);
    var r := s.table[pid];
    assert r !in log;
    forall q
      ensures q in log + [r] <==> q in s.log || exists p :: p in freed + {pid} && p in s.table && s.table[p] == q
    {
      if q == r {
        assert pid in freed + {pid};
      } else if p :| p in freed && p in s.table && s.table[p] == q {
        assert p in freed + {pid};
      }
    }
  }

  // A published node is the binding of its proc_id.
  lemma InTable(home: Pid -> Slot, s: State, t: Token, i: nat)
    requires GensOk(home, s.gens) && SlotsOk(s.pages, s.slots, s.cur, s.gens) && TableOk(home, s.table, s.cur, s.gens)
    requires t < |s.gens| && s.gens[t].stage == Published && i < |s.gens[t].pairs|
    ensures Get(s.table, s.gens[t].pairs[i].0) == Some(s.gens[t].pairs[i].1)
  {
    var g := s.gens[t];
    assert GenOk(home, g);
    assert s.cur[g.slot] == t;
    FindAt(g.pairs, i);
    assert CurPairs(s.cur, s.gens, home(g.pairs[i].0)) == g.pairs;
  }

  lemma OnceLive(s: State, pid: Pid)
    requires StatusOk(s.table, s.gens, s.status, s.log) && pid in s.table
    ensures s.table[pid] !in s.log
    ensures forall q :: q in s.table && s.table[q] == s.table[pid] ==> q == pid
  {
    hide Owes, FinReg;
  }

  // A chain freed to its end is a slot done.
  lemma ChainDone(home: Pid -> Slot, s: State, done: set<Slot>, t: Token, heap: map<Addr, Node>, log: seq<Reg>)
    requires GensOk(home, s.gens) && HeapOk(s.heap, s.gens) && SlotsOk(s.pages, s.slots, s.cur, s.gens)
    requires TableOk(home, s.table, s.cur, s.gens) && Slotted(home, s, done, t)
    requires Left(s, done, t, |s.gens[t].addrs|, heap) && Logged(home, s, done, t, |s.gens[t].addrs|, log)
    ensures Left(s, done + {s.gens[t].slot}, 0, 0, heap) && Logged(home, s, done + {s.gens[t].slot}, 0, 0, log)
  {
    hide Logs, Freed, TableOk, HeapOk;
    var g := s.gens[t];
    assert FreedPids(home, s, done, t, |g.addrs|) == FreedPids(home, s, done + {g.slot}, 0, 0) by {
      forall pid | pid in s.table
        ensures Freed(home, s, done, t, |g.addrs|, pid) <==> Freed(home, s, done + {g.slot}, 0, 0, pid)
      {
        ChainFreed(home, s, done, t, pid);
      }
    }
    hide FreedPids, Slotted, GensOk, SlotsOk;
    ChainGone(home, s, done, t, heap);
  }

  lemma ChainFreed(home: Pid -> Slot, s: State, done: set<Slot>, t: Token, pid: Pid)
    requires GensOk(home, s.gens) && SlotsOk(s.pages, s.slots, s.cur, s.gens) && TableOk(home, s.table, s.cur, s.gens)
    requires Slotted(home, s, done, t) && pid in s.table
    ensures Freed(home, s, done, t, |s.gens[t].addrs|, pid) <==> Freed(home, s, done + {s.gens[t].slot}, 0, 0, pid)
  {
    var g := s.gens[t];
    assert GenOk(home, g) && s.cur[g.slot] == t;
    assert Get(s.table, pid) == Find(CurPairs(s.cur, s.gens, home(pid)), pid);
    hide GensOk, SlotsOk, TableOk, Find;
    if home(pid) == g.slot {
      var j := FoundAt(g.pairs, pid);
      assert g.pairs[j].0 == pid;
    }
  }

  lemma ChainGone(home: Pid -> Slot, s: State, done: set<Slot>, t: Token, heap: map<Addr, Node>)
    requires GensOk(home, s.gens) && HeapOk(s.heap, s.gens) && SlotsOk(s.pages, s.slots, s.cur, s.gens)
    requires Slotted(home, s, done, t) && Left(s, done, t, |s.gens[t].addrs|, heap)
    ensures Left(s, done + {s.gens[t].slot}, 0, 0, heap)
  {
    hide GensOk;
    var g := s.gens[t];
    forall a | a in s.heap
      ensures var n := s.heap[a];
              if n.tok < |s.gens| && s.gens[n.tok].stage == Published && s.gens[n.tok].slot in done + {g.slot}
              then a !in heap
              else a in heap && heap[a] == n
    {
      var n := s.heap[a];
      assert n.tok < |s.gens| && n.pos < |s.gens[n.tok].addrs|;
      if s.gens[n.tok].stage == Published && s.gens[n.tok].slot == g.slot { assert n.tok == t; }
    }
  }

  method FreeChain(home: Pid -> Slot, s: State, ghost done: set<Slot>, k: Slot, heap0: map<Addr, Node>, log0: seq<Reg>)
    returns (heap: map<Addr, Node>, log: seq<Reg>)
    requires Inv(home, s) && k in s.slots && k !in done
    requires heap0.Keys <= s.heap.Keys && Left(s, done, 0, 0, heap0) && Logged(home, s, done, 0, 0, log0)
    ensures heap.Keys <= heap0.Keys && Left(s, done + {k}, 0, 0, heap) && Logged(home, s, done + {k}, 0, 0, log)
  {
    hide GensOk, HeapOk, SlotsOk, TableOk, StatusOk, ThreadsOk, CountOk, LockOk, FlightOk, HolderOk, WatchedOk, Left,
         Logged;
    heap, log := heap0, log0;
    var p := s.slots[k];
    ChainStart(home, s, done, k, heap, log);
    ghost var t := s.cur[k];
    ghost var i := 0;
    while p != NULL
      invariant heap.Keys <= heap0.Keys && i <= |s.gens[t].addrs| && p == PtrAt(s.gens[t].addrs, i)
      invariant Left(s, done, t, i, heap) && Logged(home, s, done, t, i, log)
      decreases |s.gens[t].addrs| - i
    {
      FreeNext(home, s, done, t, i, heap);
      LogNext(home, s, done, t, i, log);
      var n := heap[p];
      log := log + [n.reg];
      heap := heap - {p};
      p := n.next;
      i := i + 1;
    }
    if i < |s.gens[t].addrs| { FreeNext(home, s, done, t, i, heap); }
    ChainDone(home, s, done, t, heap, log);
  }

  lemma ChainStart(home: Pid -> Slot, s: State, done: set<Slot>, k: Slot, heap: map<Addr, Node>, log: seq<Reg>)
    requires GensOk(home, s.gens) && SlotsOk(s.pages, s.slots, s.cur, s.gens) && k in s.slots && k !in done
    requires Left(s, done, 0, 0, heap) && Logged(home, s, done, 0, 0, log)
    ensures k in s.cur && Slotted(home, s, done, s.cur[k]) && s.gens[s.cur[k]].slot == k
    ensures s.slots[k] == PtrAt(s.gens[s.cur[k]].addrs, 0)
    ensures Left(s, done, s.cur[k], 0, heap) && Logged(home, s, done, s.cur[k], 0, log)
  {
    assert GenOk(home, s.gens[s.cur[k]]);
    hide GensOk, SlotsOk, Logs;
    forall pid ensures Freed(home, s, done, 0, 0, pid) == Freed(home, s, done, s.cur[k], 0, pid) {}
    assert FreedPids(home, s, done, 0, 0) == FreedPids(home, s, done, s.cur[k], 0);
  }

  // The nodes of leaked chains.
  ghost predicate LeakedNode(s: State, a: Addr) {
    a in s.heap && s.heap[a].tok < |s.gens| && s.gens[s.heap[a].tok].stage == Leaked
  }

  // All slots, in any order; the retired list is empty by then.  Afterwards memory holds exactly what
  // failed allocations leaked, and every registration that was ever published, except a lost one,
  // has been finalized exactly once.
  method Destroy(home: Pid -> Slot, s: State) returns (heap: map<Addr, Node>, log: seq<Reg>)
    requires Inv(home, s) && Quiescent(s)
    ensures s.retired == []
    ensures forall a :: a in heap <==> LeakedNode(s, a)
    ensures forall a :: a in heap ==> a in s.heap && heap[a] == s.heap[a]
    ensures forall i, j :: 0 <= i < j < |log| ==> log[i] != log[j]
    ensures forall r :: r in log <==> r in s.status && s.status[r] !in {Failed, Lost}
    ensures Tight(s.gens, s.status) ==> heap == map[] && forall r :: r in s.status && s.status[r] != Failed ==> r in log
  {
    hide Inv, Left, Logged, Quiescent;
    heap, log := s.heap, s.log;
    ghost var all := s.slots.Keys;
    var todo := s.slots.Keys;
    NothingFreed(home, s);
    assert all - todo == {};
    while todo != {}
      invariant todo <= all && heap.Keys <= s.heap.Keys
      invariant Left(s, all - todo, 0, 0, heap) && Logged(home, s, all - todo, 0, 0, log)
      decreases todo
    {
      var k :| k in todo;
      assert (all - todo) + {k} == all - (todo - {k});
      heap, log := FreeChain(home, s, all - todo, k, heap, log);
      todo := todo - {k};
    }
    assert all - todo == all;
    AllFreed(home, s, heap, log);
  }

  lemma NothingFreed(home: Pid -> Slot, s: State)
    requires Inv(home, s)
    ensures Left(s, {}, 0, 0, s.heap) && Logged(home, s, {}, 0, 0, s.log)
  {
    hide GensOk, HeapOk, SlotsOk, TableOk, ThreadsOk, CountOk, LockOk, FlightOk, HolderOk, WatchedOk, Owes, FinReg,
         Accounted;
  }

  lemma AllFreed(home: Pid -> Slot, s: State, heap: map<Addr, Node>, log: seq<Reg>)
    requires Inv(home, s) && Quiescent(s) && heap.Keys <= s.heap.Keys
    requires Left(s, s.slots.Keys, 0, 0, heap) && Logged(home, s, s.slots.Keys, 0, 0, log)
    ensures s.retired == []
    ensures forall a :: a in heap <==> LeakedNode(s, a)
    ensures forall a :: a in heap ==> a in s.heap && heap[a] == s.heap[a]
    ensures forall i, j :: 0 <= i < j < |log| ==> log[i] != log[j]
    ensures forall r :: r in log <==> r in s.status && s.status[r] !in {Failed, Lost}
  {
    hide GensOk, HeapOk, ThreadsOk, CountOk, LockOk, FlightOk, HolderOk, WatchedOk, Owes, FinReg;
    QuiescentClean(home, s);
    OnlyLeaked(home, s, heap);
    forall r ensures r in log <==> r in s.status && s.status[r] !in {Failed, Lost} {
      if r in s.status { assert Accounted(s.table, s.gens, s.log, r, s.status[r]); }
      if r in s.status && s.status[r].Live? {
        var pid := s.status[r].pid;
        assert Get(s.table, pid) == Find(CurPairs(s.cur, s.gens, home(pid)), pid);
        assert home(pid) in s.slots;
        assert pid in FreedPids(home, s, s.slots.Keys, 0, 0);
      }
    }
  }

  lemma OnlyLeaked(home: Pid -> Slot, s: State, heap: map<Addr, Node>)
    requires SlotsOk(s.pages, s.slots, s.cur, s.gens) && heap.Keys <= s.heap.Keys && Left(s, s.slots.Keys, 0, 0, heap)
    requires forall a :: a in s.heap ==> s.heap[a].tok < |s.gens| && s.gens[s.heap[a].tok].stage in {Published, Leaked}
    ensures forall a :: a in heap <==> LeakedNode(s, a)
    ensures forall a :: a in heap ==> a in s.heap && heap[a] == s.heap[a]
  {
  }
}
