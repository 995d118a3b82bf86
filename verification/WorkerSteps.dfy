/** Every step of the worker machine preserves the invariant. */
module WorkerSteps {
  import opened Options
  import opened Sequences
  import opened Worker
  import opened WorkerInvariant

  // ---------- attempts of foreign threads and handlers ----------

  // The same calls, pointing to the same connections.
  ghost predicate SameCalls(calls: map<Did, Call>, calls': map<Did, Call>) {
    && calls'.Keys == calls.Keys
    && forall d :: d in calls ==> SameCall(calls[d], calls'[d])
  }

  predicate SameCall(a: Call, b: Call) {
    b.conn == a.conn && b.connSerial == a.connSerial && b.serial == a.serial && b.ids == a.ids
  }

  lemma SameCallsKeep(s: State, calls': map<Did, Call>)
    requires CountsOk(s.conns, s.calls) && RefsOk(s.conns, s.calls, s.started) && SameCalls(s.calls, calls')
    requires SerialsOk(s.conns, s.calls, s.next, s.started, s.freed)
    ensures CountsOk(s.conns, calls') && RefsOk(s.conns, calls', s.started)
    ensures SerialsOk(s.conns, calls', s.next, s.started, s.freed)
  {
    forall d | d in calls' ensures SameCall(s.calls[d], calls'[d]) {}
    forall c ensures CallsOf(calls', c) == CallsOf(s.calls, c) {}
  }

  lemma BeginInv(s: State, th: Tid, d: Did, rc: int, s': State)
    requires Inv(s) && BeginStep(s, th, d, rc, s')
    ensures Inv(s')
  {
    hide ListsOk, CountsOk, RefsOk, SerialsOk, LogsOk, RepliesOk, ControlOk;
    assert s'.attempts == s.attempts[th := Trying(d, s.calls[d].serial, rc)];
    TryQueue(Queue(s.pc, s.completed), s.calls, s.attempts, th, s'.attempts[th]);
    hide QueueOk;
  }

  // An attempt that owns nothing before or after.
  lemma TryQueue(q: seq<Did>, calls: map<Did, Call>, attempts: map<Tid, Attempt>, th: Tid, a: Attempt)
    requires QueueOk(q, calls, attempts) && th in attempts && Owned(attempts[th]).None? && Owned(a).None?
    ensures QueueOk(q, calls, attempts[th := a])
  {
    forall d | d in calls && calls[d].completed && d !in q ensures HasOwner(attempts[th := a], d) {
      var t :| t in attempts && Owned(attempts[t]) == Some(d);
      assert attempts[th := a][t] == attempts[t];
    }
  }

  lemma WinQueue(q: seq<Did>, calls: map<Did, Call>, attempts: map<Tid, Attempt>, th: Tid, d: Did, rc: int)
    requires QueueOk(q, calls, attempts) && th in attempts && Owned(attempts[th]).None? && d in calls
    requires !calls[d].completed
    ensures QueueOk(q, calls[d := calls[d].(completed := true)], attempts[th := Won(d, calls[d].serial, rc)])
  {
    var attempts' := attempts[th := Won(d, calls[d].serial, rc)];
    var calls' := calls[d := calls[d].(completed := true)];
    forall e | e in calls' && calls'[e].completed && e !in q ensures HasOwner(attempts', e) {
      if e == d {
        assert Owned(attempts'[th]) == Some(d);
      } else {
        var t :| t in attempts && Owned(attempts[t]) == Some(e);
        assert attempts'[t] == attempts[t];
      }
    }
  }

  lemma StoreQueue(q: seq<Did>, calls: map<Did, Call>, attempts: map<Tid, Attempt>, th: Tid)
    requires QueueOk(q, calls, attempts) && th in attempts && attempts[th].Won? && attempts[th].call in calls
    ensures var a := attempts[th];
            QueueOk(q, calls[a.call := calls[a.call].(result := Some(a.rc))], attempts[th := Stored(a.call, a.serial)])
  {
    var a := attempts[th];
    var attempts' := attempts[th := Stored(a.call, a.serial)];
    var calls' := calls[a.call := calls[a.call].(result := Some(a.rc))];
    forall e | e in calls' && calls'[e].completed && e !in q ensures HasOwner(attempts', e) {
      var t :| t in attempts && Owned(attempts[t]) == Some(e);
      assert Owned(attempts'[t]) == Owned(attempts[t]);
    }
  }

  lemma PushQueue(q: seq<Did>, calls: map<Did, Call>, attempts: map<Tid, Attempt>, th: Tid)
    requires QueueOk(q, calls, attempts) && th in attempts && attempts[th].Stored?
    ensures QueueOk(q + [attempts[th].call], calls, attempts[th := Owing])
  {
    var d := attempts[th].call;
    var attempts' := attempts[th := Owing];
    forall e | e in calls && calls[e].completed && e !in q + [d] ensures HasOwner(attempts', e) {
      assert e !in q && e != d;
      var t :| t in attempts && Owned(attempts[t]) == Some(e);
      assert attempts'[t] == attempts[t];
    }
  }

  // Winning moves a serial into `won`; storing a result changes no log.
  lemma WinLogs(q: seq<Did>, s: State, d: Did)
    requires LogsOk(q, s.calls, s.won, s.queued, s.drained, s.started)
    requires SerialsOk(s.conns, s.calls, s.next, s.started, s.freed) && RefsOk(s.conns, s.calls, s.started)
    requires d in s.calls && !s.calls[d].completed
    ensures LogsOk(q, s.calls[d := s.calls[d].(completed := true)], s.won + [s.calls[d].serial], s.queued, s.drained,
                   s.started)
  {
    var calls' := s.calls[d := s.calls[d].(completed := true)];
    assert Serials(calls', q) == Serials(s.calls, q);
    assert forall n :: n in s.won + [s.calls[d].serial] <==> n in s.won || n == s.calls[d].serial;
    hide SerialsOk;
    assert forall e :: e in s.calls && e != d ==> s.calls[e].serial != s.calls[d].serial by { Unequal(s, d); }
  }

  lemma Unequal(s: State, d: Did)
    requires SerialsOk(s.conns, s.calls, s.next, s.started, s.freed) && d in s.calls
    ensures forall e :: e in s.calls && e != d ==> s.calls[e].serial != s.calls[d].serial
  {
  }

  lemma ResultLogs(q: seq<Did>, s: State, d: Did, rc: int)
    requires LogsOk(q, s.calls, s.won, s.queued, s.drained, s.started) && d in s.calls
    ensures LogsOk(q, s.calls[d := s.calls[d].(result := Some(rc))], s.won, s.queued, s.drained, s.started)
  {
    assert Serials(s.calls[d := s.calls[d].(result := Some(rc))], q) == Serials(s.calls, q);
  }

  lemma PushLogs(q: seq<Did>, s: State, d: Did)
    requires LogsOk(q, s.calls, s.won, s.queued, s.drained, s.started) && d in s.calls
    ensures LogsOk(q + [d], s.calls, s.won, s.queued + [s.calls[d].serial], s.drained, s.started)
  {
    assert Serials(s.calls, q + [d]) == Serials(s.calls, q) + [s.calls[d].serial];
  }

  // Nothing but a poll looks at the wake.
  lemma Woken(s: State, wake: bool)
    requires Inv(s)
    ensures Inv(s.(wake := wake))
  {
    hide ListsOk, CountsOk, RefsOk, SerialsOk, LogsOk, RepliesOk, ControlOk, QueueOk, HandlerOk;
  }

  lemma LoseInv(s: State, th: Tid)
    requires Inv(s) && th in s.attempts && Owned(s.attempts[th]).None?
    ensures Inv(Lose(s, th))
  {
    hide ListsOk, CountsOk, RefsOk, SerialsOk, LogsOk, RepliesOk, ControlOk, QueueOk;
    TryQueue(Queue(s.pc, s.completed), s.calls, s.attempts, th, Ready);
  }

  lemma WinInv(s: State, th: Tid, d: Did, rc: int)
    requires Inv(s) && th in s.attempts && d in s.calls && s.attempts[th] == Trying(d, s.calls[d].serial, rc)
    requires !s.calls[d].completed
    ensures Inv(Win(s, th, d, rc))
  {
    hide ListsOk, CountsOk, RefsOk, SerialsOk, LogsOk, RepliesOk, ControlOk, QueueOk;
    var q := Queue(s.pc, s.completed);
    SameCallsKeep(s, Win(s, th, d, rc).calls);
    WinQueue(q, s.calls, s.attempts, th, d, rc);
    WinLogs(q, s, d);
  }

  lemma StoreInv(s: State, th: Tid, d: Did, rc: int)
    requires Inv(s) && th in s.attempts && d in s.calls && s.attempts[th] == Won(d, s.calls[d].serial, rc)
    ensures Inv(Store(s, th, d, rc))
  {
    hide ListsOk, CountsOk, RefsOk, SerialsOk, LogsOk, RepliesOk, ControlOk, QueueOk;
    var q := Queue(s.pc, s.completed);
    SameCallsKeep(s, Store(s, th, d, rc).calls);
    StoreQueue(q, s.calls, s.attempts, th);
    ResultLogs(q, s, d, rc);
  }

  lemma PushInv(s: State, th: Tid, d: Did)
    requires Inv(s) && th in s.attempts && d in s.calls && s.attempts[th] == Stored(d, s.calls[d].serial)
    ensures Inv(Push(s, th, d))
  {
    hide ListsOk, CountsOk, RefsOk, SerialsOk, LogsOk, RepliesOk, ControlOk, QueueOk;
    var q := Queue(s.pc, s.completed);
    PushQueue(q, s.calls, s.attempts, th);
    PushLogs(q, s, d);
    assert Queue(s.pc, s.completed + [d]) == q + [d];
  }

  lemma AttemptInv(s: State, th: Tid, s': State)
    requires Inv(s) && AttemptStep(s, th, s')
    ensures Inv(s')
  {
    hide Inv, Lose, Win, Store, Push;
    match s.attempts[th]
    case Trying(d, _, rc) => if s.calls[d].completed { LoseInv(s, th); } else { WinInv(s, th, d, rc); }
    case Won(d, _, rc) => StoreInv(s, th, d, rc);
    case Stored(d, _) => PushInv(s, th, d);
    case Owing =>
      LoseInv(s, th);
      Woken(Lose(s, th), true);
      assert WakeUp(s, th) == Lose(s, th).(wake := true) by { Roused(s, th); }
  }

  lemma Roused(s: State, th: Tid)
    ensures WakeUp(s, th) == Lose(s, th).(wake := true)
  {
  }

  // ---------- connections ----------

  predicate SameLife(k: Conn, k': Conn) {
    k'.serial == k.serial && k'.detached == k.detached && k'.pending == k.pending
  }

  // Changing flags and buffers only.
  lemma Touch(s: State, c: Cid, k: Conn)
    requires c in s.conns && SameLife(s.conns[c], k)
    requires CountsOk(s.conns, s.calls) && RefsOk(s.conns, s.calls, s.started) && ControlOk(s.pc, s.conns)
    requires SerialsOk(s.conns, s.calls, s.next, s.started, s.freed)
    ensures CountsOk(s.conns[c := k], s.calls) && RefsOk(s.conns[c := k], s.calls, s.started)
    ensures ControlOk(s.pc, s.conns[c := k])
    ensures SerialsOk(s.conns[c := k], s.calls, s.next, s.started, s.freed)
  {
    hide CallsOf;
  }

  lemma TouchLists(conns: map<Cid, Conn>, connections: seq<Cid>, writes: seq<Cid>, c: Cid, k: Conn)
    requires ListsOk(conns, connections, writes) && c in conns && SameLife(conns[c], k)
    requires k.writeQueued == conns[c].writeQueued
    ensures ListsOk(conns[c := k], connections, writes)
  {
  }

  lemma QueueLists(conns: map<Cid, Conn>, connections: seq<Cid>, writes: seq<Cid>, c: Cid, k: Conn)
    requires ListsOk(conns, connections, writes) && c in conns && SameLife(conns[c], k)
    requires !k.detached && k.writeQueued && !conns[c].writeQueued
    ensures ListsOk(conns[c := k], connections, [c] + writes)
  {
    assert c !in writes;
  }

  lemma Queued(s: State, c: Cid)
    requires Inv(s) && c in s.conns && !s.conns[c].detached && !s.pc.Flushing?
    ensures Inv(QueuePacket(s, c))
  {
    hide ListsOk, CountsOk, RefsOk, SerialsOk, LogsOk, RepliesOk, QueueOk, ControlOk, HandlerOk;
    var k := s.conns[c].(unsent := true, writeQueued := true);
    Touch(s, c, k);
    if s.conns[c].writeQueued {
      TouchLists(s.conns, s.connections, s.pendingWrites, c, k);
    } else {
      QueueLists(s.conns, s.connections, s.pendingWrites, c, k);
    }
  }

  lemma Touched(s: State, c: Cid, k: Conn)
    requires Inv(s) && c in s.conns && SameLife(s.conns[c], k) && k.writeQueued == s.conns[c].writeQueued
    ensures Inv(SetConn(s, c, k))
  {
    hide ListsOk, CountsOk, RefsOk, SerialsOk, LogsOk, RepliesOk, QueueOk, ControlOk, HandlerOk;
    Touch(s, c, k);
    TouchLists(s.conns, s.connections, WriteList(s.pc, s.pendingWrites), c, k);
  }

  lemma Accepted(s: State, c: Cid)
    requires Inv(s) && c !in s.conns && s.pc.Batch?
    ensures Inv(s.(conns := s.conns[c := Conn(s.next, false, false, false, 0, false)],
                   connections := [c] + s.connections, next := s.next + 1))
  {
    hide ListsOk, CountsOk, RefsOk, SerialsOk, LogsOk, RepliesOk, QueueOk, ControlOk, HandlerOk;
    var k := Conn(s.next, false, false, false, 0, false);
    AcceptLists(s.conns, s.connections, s.pendingWrites, c, k);
    AcceptRest(s, c, k);
  }

  lemma AcceptRest(s: State, c: Cid, k: Conn)
    requires CountsOk(s.conns, s.calls) && RefsOk(s.conns, s.calls, s.started) && ControlOk(s.pc, s.conns)
    requires SerialsOk(s.conns, s.calls, s.next, s.started, s.freed)
    requires c !in s.conns && k == Conn(s.next, false, false, false, 0, false)
    ensures CountsOk(s.conns[c := k], s.calls) && RefsOk(s.conns[c := k], s.calls, s.started)
    ensures ControlOk(s.pc, s.conns[c := k])
    ensures SerialsOk(s.conns[c := k], s.calls, s.next + 1, s.started, s.freed)
  {
    hide CallsOf;
    AcceptCounts(s.conns, s.calls, s.started, c, k);
    hide CountsOk;
  }

  lemma AcceptCounts(conns: map<Cid, Conn>, calls: map<Did, Call>, started: map<nat, (nat, Ids)>, c: Cid, k: Conn)
    requires CountsOk(conns, calls) && RefsOk(conns, calls, started) && c !in conns && !k.detached && k.pending == 0
    ensures CountsOk(conns[c := k], calls)
  {
    assert CallsOf(calls, c) == {};
    hide CallsOf;
  }

  lemma AcceptLists(conns: map<Cid, Conn>, connections: seq<Cid>, writes: seq<Cid>, c: Cid, k: Conn)
    requires ListsOk(conns, connections, writes) && c !in conns && !k.detached && !k.writeQueued
    ensures ListsOk(conns[c := k], [c] + connections, writes)
  {
    assert c !in connections && c !in writes;
  }

  // ---------- starting a call ----------

  lemma CountStart(calls: map<Did, Call>, d: Did, call: Call, c: Cid)
    requires d !in calls
    ensures |CallsOf(calls[d := call], c)| == |CallsOf(calls, c)| + (if call.conn == c then 1 else 0)
  {
    if call.conn == c {
      assert CallsOf(calls[d := call], c) == CallsOf(calls, c) + {d};
    } else {
      assert CallsOf(calls[d := call], c) == CallsOf(calls, c);
    }
  }

  lemma CountDrain(calls: map<Did, Call>, d: Did, c: Cid)
    requires d in calls
    ensures |CallsOf(calls - {d}, c)| == |CallsOf(calls, c)| - (if calls[d].conn == c then 1 else 0)
  {
    if calls[d].conn == c {
      assert CallsOf(calls - {d}, c) == CallsOf(calls, c) - {d};
    } else {
      assert CallsOf(calls - {d}, c) == CallsOf(calls, c);
    }
  }

  // The count cannot wrap: there are fewer deferred slots than 2^32.
  lemma CountBound(calls: map<Did, Call>, c: Cid)
    requires forall d :: d in calls ==> d < DEFERRED_CAPACITY
    ensures |CallsOf(calls, c)| <= DEFERRED_CAPACITY
  {
    Bounded(CallsOf(calls, c), DEFERRED_CAPACITY);
  }

  lemma {:induction false} Bounded(a: set<nat>, n: nat)
    requires forall x :: x in a ==> x < n
    ensures |a| <= n
  {
    if n == 0 {
      assert a == {};
    } else {
      Bounded(a - {n - 1}, n - 1);
    }
  }

  lemma StartCounts(s: State, c: Cid, d: Did, call: Call)
    requires CountsOk(s.conns, s.calls) && RefsOk(s.conns, s.calls, s.started) && c in s.conns && d !in s.calls
    requires call.conn == c
    ensures s.conns[c].pending + 1 < U32
    ensures CountsOk(s.conns[c := s.conns[c].(pending := s.conns[c].pending + 1)], s.calls[d := call])
  {
    CountBound(s.calls, c);
    hide CallsOf, RefsOk;
    forall e | e in s.conns
      ensures |CallsOf(s.calls[d := call], e)| == |CallsOf(s.calls, e)| + (if e == c then 1 else 0)
    {
      CountStart(s.calls, d, call, e);
    }
  }

  lemma StartQueue(q: seq<Did>, s: State, d: Did, call: Call)
    requires QueueOk(q, s.calls, s.attempts) && LogsOk(q, s.calls, s.won, s.queued, s.drained, s.started)
    requires SerialsOk(s.conns, s.calls, s.next, s.started, s.freed)
    requires d !in s.calls && !call.completed && call.serial == s.next
    ensures QueueOk(q, s.calls[d := call], s.attempts)
    ensures LogsOk(q, s.calls[d := call], s.won, s.queued, s.drained, s.started[s.next := (call.connSerial, call.ids)])
  {
    var calls' := s.calls[d := call];
    assert Serials(calls', q) == Serials(s.calls, q);
    assert s.next !in s.won && s.next !in s.drained;
  }

  lemma Started(s: State, d: Did, ids: Ids)
    requires Inv(s) && s.pc.Reading? && s.pc.c in s.conns && d !in s.calls && d < DEFERRED_CAPACITY
    ensures var k := s.conns[s.pc.c];
            && (k.pending + 1) % U32 == k.pending + 1
            && Inv(s.(pc := Handling(d, s.pc.c, s.pc.write, s.pc.evs),
                      conns := s.conns[s.pc.c := k.(pending := k.pending + 1)],
                      calls := s.calls[d := Call(s.next, s.pc.c, k.serial, ids, false, None)],
                      started := s.started[s.next := (k.serial, ids)],
                      next := s.next + 1))
  {
    hide QueueOk, LogsOk, RepliesOk, CountsOk, ListsOk;
    var c := s.pc.c;
    var k := s.conns[c];
    var k' := k.(pending := k.pending + 1);
    var call := Call(s.next, c, k.serial, ids, false, None);
    StartCounts(s, c, d, call);
    StartQueue(Queue(s.pc, s.completed), s, d, call);
    PendingLists(s.conns, s.connections, s.pendingWrites, c, k');
    assert RefsOk(s.conns[c := k'], s.calls[d := call], s.started[s.next := (k.serial, ids)]);
    hide RefsOk;
    assert SerialsOk(s.conns[c := k'], s.calls[d := call], s.next + 1, s.started[s.next := (k.serial, ids)],
                     s.freed) by {
      StartSerials(s, c, k', d, call);
    }
    StartReplies(s, (k.serial, ids));
    hide SerialsOk;
  }

  lemma StartReplies(s: State, what: (nat, Ids))
    requires RepliesOk(s.replies, s.drained, s.started) && SerialsOk(s.conns, s.calls, s.next, s.started, s.freed)
    ensures RepliesOk(s.replies, s.drained, s.started[s.next := what])
  {
  }

  lemma PendingLists(conns: map<Cid, Conn>, connections: seq<Cid>, writes: seq<Cid>, c: Cid, k: Conn)
    requires ListsOk(conns, connections, writes) && c in conns
    requires k.detached == conns[c].detached && k.writeQueued == conns[c].writeQueued
    ensures ListsOk(conns[c := k], connections, writes)
  {
  }

  lemma StartSerials(s: State, c: Cid, k: Conn, d: Did, call: Call)
    requires SerialsOk(s.conns, s.calls, s.next, s.started, s.freed) && RefsOk(s.conns, s.calls, s.started)
    requires c in s.conns && k.serial == s.conns[c].serial && d !in s.calls && call.serial == s.next
    ensures SerialsOk(s.conns[c := k], s.calls[d := call], s.next + 1,
                      s.started[s.next := (call.connSerial, call.ids)], s.freed)
  {
  }

  // ---------- closing ----------

  lemma {:induction false} RemoveOne(l: seq<Cid>, c: Cid)
    requires Distinct(l)
    ensures Distinct(Remove(l, c))
    ensures forall x :: x in Remove(l, c) <==> x in l && x != c
    ensures c !in l ==> Remove(l, c) == l
  {
    if l != [] {
      RemoveOne(l[1..], c);
      assert forall x :: x in l <==> x == l[0] || x in l[1..];
      assert l[0] !in l[1..];
      assert l == [l[0]] + l[1..];
    }
  }

  lemma ListsWithout(conns: map<Cid, Conn>, connections: seq<Cid>, writes: seq<Cid>, c: Cid,
                     conns': map<Cid, Conn>, connections': seq<Cid>, writes': seq<Cid>)
    requires ListsOk(conns, connections, writes) && Distinct(connections') && Distinct(writes')
    requires forall x :: x in connections' <==> x in connections && x != c
    requires forall x :: x in writes' <==> x in writes && x != c
    requires forall x :: x != c ==> (x in conns' <==> x in conns) && (x in conns ==> conns'[x] == conns[x])
    requires c in conns' ==> conns'[c].detached && !conns'[c].writeQueued
    ensures ListsOk(conns', connections', writes')
  {
    hide Distinct;
  }

  lemma DetachLists(conns: map<Cid, Conn>, connections: seq<Cid>, writes: seq<Cid>, c: Cid, k: Conn)
    requires ListsOk(conns, connections, writes) && c in conns && k.detached && !k.writeQueued
    ensures ListsOk(conns[c := k], Remove(connections, c), Remove(writes, c))
    ensures ListsOk(conns - {c}, Remove(connections, c), Remove(writes, c))
    ensures !conns[c].writeQueued ==> Remove(writes, c) == writes
  {
    RemoveOne(connections, c);
    RemoveOne(writes, c);
    assert !conns[c].writeQueued ==> c !in writes;
    hide Remove, Distinct, ListsOk;
    ListsWithout(conns, connections, writes, c, conns[c := k], Remove(connections, c), Remove(writes, c));
    ListsWithout(conns, connections, writes, c, conns - {c}, Remove(connections, c), Remove(writes, c));
  }

  // The slot of a connection nobody refers to goes back to the arena.
  lemma FreeRest(s: State, c: Cid)
    requires c in s.conns && CallsOf(s.calls, c) == {}
    requires CountsOk(s.conns, s.calls) && RefsOk(s.conns, s.calls, s.started)
    requires SerialsOk(s.conns, s.calls, s.next, s.started, s.freed)
    ensures CountsOk(s.conns - {c}, s.calls) && RefsOk(s.conns - {c}, s.calls, s.started)
    ensures SerialsOk(s.conns - {c}, s.calls, s.next, s.started, s.freed + [s.conns[c].serial])
  {
    hide SerialsOk;
    assert forall d :: d in s.calls ==> (d in CallsOf(s.calls, c) <==> s.calls[d].conn == c);
    hide CallsOf;
    FreeSerials(s, c);
  }

  lemma FreeSerials(s: State, c: Cid)
    requires SerialsOk(s.conns, s.calls, s.next, s.started, s.freed) && c in s.conns
    ensures SerialsOk(s.conns - {c}, s.calls, s.next, s.started, s.freed + [s.conns[c].serial])
  {
    assert forall n :: n in s.freed + [s.conns[c].serial] <==> n in s.freed || n == s.conns[c].serial;
  }

  lemma FreeControl(pc: PC, conns: map<Cid, Conn>, c: Cid)
    requires ControlOk(pc, conns) && Current(pc) != Some(c)
    requires forall i :: 0 <= i < |Events(pc)| && Events(pc)[i].On? ==> Events(pc)[i].c != c
    ensures ControlOk(pc, conns - {c})
  {
  }

  lemma DetachRest(s: State, c: Cid, k: Conn)
    requires c in s.conns && k.detached && k.serial == s.conns[c].serial && k.pending == s.conns[c].pending
    requires k.pending > 0
    requires CountsOk(s.conns, s.calls) && RefsOk(s.conns, s.calls, s.started) && ControlOk(s.pc, s.conns)
    requires SerialsOk(s.conns, s.calls, s.next, s.started, s.freed)
    requires Current(s.pc) != Some(c)
    requires forall i :: 0 <= i < |Events(s.pc)| && Events(s.pc)[i].On? ==> Events(s.pc)[i].c != c
    ensures CountsOk(s.conns[c := k], s.calls) && RefsOk(s.conns[c := k], s.calls, s.started)
    ensures ControlOk(s.pc, s.conns[c := k])
    ensures SerialsOk(s.conns[c := k], s.calls, s.next, s.started, s.freed)
  {
    hide CallsOf;
  }

  lemma NoCalls(s: State, c: Cid)
    requires CountsOk(s.conns, s.calls) && c in s.conns && s.conns[c].pending == 0
    ensures CallsOf(s.calls, c) == {}
  {
  }

  // `maybe_close` on an attached connection that the worker no longer needs.
  lemma Closed(s: State, c: Cid)
    requires Inv(s) && c in s.conns && !s.conns[c].detached && Current(s.pc) != Some(c)
    requires forall i :: 0 <= i < |Events(s.pc)| && Events(s.pc)[i].On? ==> Events(s.pc)[i].c != c
    requires s.pc.Flushing? ==> !s.conns[c].writeQueued
    ensures Inv(MaybeClose(s, c))
  {
    hide ListsOk, CountsOk, RefsOk, SerialsOk, LogsOk, RepliesOk, QueueOk, ControlOk, HandlerOk, Remove;
    var k := s.conns[c].(detached := true, writeQueued := false, unsent := false);
    var writes := WriteList(s.pc, s.pendingWrites);
    DetachLists(s.conns, s.connections, writes, c, k);
    if s.conns[c].pending == 0 {
      NoCalls(s, c);
      FreeRest(s, c);
      FreeControl(s.pc, s.conns, c);
      assert s.conns[c := k] - {c} == s.conns - {c};
    } else {
      DetachRest(s, c, k);
    }
  }

  lemma WriteThenClose(s: State, c: Cid, evs: seq<Event>)
    requires Inv(s) && s.pc == Closing(c, evs)
    ensures c in s.conns && Inv(MaybeClose(s, c).(pc := Batch(evs)))
  {
    hide ListsOk, CountsOk, RefsOk, SerialsOk, LogsOk, RepliesOk, QueueOk, HandlerOk;
    var s1 := s.(pc := Batch(evs));
    assert HandlerOk(s1.pc, s1.calls, s1.attempts) by { Idle(s, s1.pc); }
    assert Inv(s1);
    Closed(s1, c);
    assert MaybeClose(s1, c) == MaybeClose(s, c).(pc := Batch(evs)) by { hide Remove; }
  }

  // Outside a handler the worker has no attempt of its own.
  lemma Idle(s: State, pc: PC)
    requires HandlerOk(s.pc, s.calls, s.attempts) && !s.pc.Handling? && !s.pc.Failing? && !pc.Handling? && !pc.Failing?
    ensures HandlerOk(pc, s.calls, s.attempts)
  {
  }

  // ---------- draining ----------

  // Taking a call off the queue and freeing it.
  lemma DrainQueue(q: seq<Did>, s: State)
    requires QueueOk(q, s.calls, s.attempts) && q != []
    ensures QueueOk(q[1..], s.calls - {q[0]}, s.attempts)
  {
    var d := q[0];
    assert d in q && d !in q[1..];
    assert forall e :: e in q <==> e == d || e in q[1..];
    forall e | e in s.calls - {d} && s.calls[e].completed && e !in q[1..] ensures HasOwner(s.attempts, e) {
      assert e !in q;
    }
  }

  lemma DrainLogs(q: seq<Did>, s: State)
    requires LogsOk(q, s.calls, s.won, s.queued, s.drained, s.started) && QueueOk(q, s.calls, s.attempts) && q != []
    requires SerialsOk(s.conns, s.calls, s.next, s.started, s.freed) && q[0] in s.calls
    ensures LogsOk(q[1..], s.calls - {q[0]}, s.won, s.queued, s.drained + [s.calls[q[0]].serial], s.started)
  {
    var d := q[0];
    var n := s.calls[d].serial;
    assert d in q && d !in q[1..];
    Unequal(s, d);
    hide SerialsOk;
    assert Serials(s.calls, q) == [n] + Serials(s.calls - {d}, q[1..]);
    assert forall m :: m in s.drained + [n] <==> m in s.drained || m == n;
    assert (s.drained + [n]) + Serials(s.calls - {d}, q[1..]) == s.drained + Serials(s.calls, q);
  }

  lemma DrainReplies(s: State, d: Did, answered: bool, ok: bool)
    requires RepliesOk(s.replies, s.drained, s.started) && d in s.calls && s.calls[d].serial !in s.drained
    requires s.calls[d].serial in s.started && s.started[s.calls[d].serial] == (s.calls[d].connSerial, s.calls[d].ids)
    ensures var call := s.calls[d];
            RepliesOk(if answered then s.replies + [Reply(call.serial, call.connSerial, call.ids, ok)] else s.replies,
                      s.drained + [call.serial], s.started)
  {
  }

  lemma RefOf(s: State, d: Did)
    requires RefsOk(s.conns, s.calls, s.started) && d in s.calls
    ensures s.calls[d].serial in s.started && s.started[s.calls[d].serial] == (s.calls[d].connSerial, s.calls[d].ids)
    ensures s.calls[d].conn in s.conns && s.conns[s.calls[d].conn].serial == s.calls[d].connSerial
  {
  }

  // A drained call leaves the count of its own connection and of no other.
  lemma DrainCard(s: State, d: Did)
    requires CountsOk(s.conns, s.calls) && d in s.calls && s.calls[d].conn in s.conns
    ensures s.conns[s.calls[d].conn].pending > 0
    ensures forall e :: e in s.conns ==>
              s.conns[e].pending == |CallsOf(s.calls - {d}, e)| + (if e == s.calls[d].conn then 1 else 0)
  {
    assert d in CallsOf(s.calls, s.calls[d].conn);
    hide CallsOf;
    forall e | e in s.conns
      ensures |CallsOf(s.calls - {d}, e)| == |CallsOf(s.calls, e)| - (if e == s.calls[d].conn then 1 else 0)
    {
      CountDrain(s.calls, d, e);
    }
  }

  lemma DrainCounts(s: State, d: Did, k: Conn)
    requires CountsOk(s.conns, s.calls) && d in s.calls && s.calls[d].conn in s.conns
    requires var was := s.conns[s.calls[d].conn];
             k.detached == was.detached && k.pending == was.pending - 1 && (k.detached ==> k.pending > 0)
    ensures CountsOk(s.conns[s.calls[d].conn := k], s.calls - {d})
  {
    DrainCard(s, d);
    hide CallsOf;
  }

  lemma DrainRefs(s: State, d: Did, k: Conn)
    requires RefsOk(s.conns, s.calls, s.started) && SerialsOk(s.conns, s.calls, s.next, s.started, s.freed)
    requires d in s.calls && s.calls[d].conn in s.conns && k.serial == s.conns[s.calls[d].conn].serial
    ensures RefsOk(s.conns[s.calls[d].conn := k], s.calls - {d}, s.started)
    ensures SerialsOk(s.conns[s.calls[d].conn := k], s.calls - {d}, s.next, s.started, s.freed)
  {
  }

  lemma PendingControl(pc: PC, conns: map<Cid, Conn>, c: Cid, k: Conn)
    requires ControlOk(pc, conns) && c in conns && k.detached == conns[c].detached
    ensures ControlOk(pc, conns[c := k])
  {
  }

  lemma DrainFree(s: State, d: Did)
    requires CountsOk(s.conns, s.calls) && RefsOk(s.conns, s.calls, s.started) && d in s.calls
    requires s.calls[d].conn in s.conns
    requires SerialsOk(s.conns, s.calls, s.next, s.started, s.freed)
    requires s.conns[s.calls[d].conn].pending == 1
    ensures var c := s.calls[d].conn;
            && CountsOk(s.conns - {c}, s.calls - {d}) && RefsOk(s.conns - {c}, s.calls - {d}, s.started)
            && SerialsOk(s.conns - {c}, s.calls - {d}, s.next, s.started, s.freed + [s.conns[c].serial])
  {
    hide SerialsOk, CountsOk, RefsOk, CallsOf;
    var c := s.calls[d].conn;
    FreeSerials(s, c);
    FewerCalls(s.(conns := s.conns - {c}, freed := s.freed + [s.conns[c].serial]), d);
    DrainCard(s, d);
    Unreferred(s.calls - {d}, c);
    FreeCounts(s, d, c);
  }

  lemma FreeCounts(s: State, d: Did, c: Cid)
    requires CountsOk(s.conns, s.calls) && RefsOk(s.conns, s.calls, s.started)
    requires forall e :: e in s.conns && e != c ==> s.conns[e].pending == |CallsOf(s.calls - {d}, e)|
    requires forall e :: e in s.calls - {d} ==> (s.calls - {d})[e].conn != c
    ensures CountsOk(s.conns - {c}, s.calls - {d}) && RefsOk(s.conns - {c}, s.calls - {d}, s.started)
  {
    hide CallsOf;
  }

  lemma Unreferred(calls: map<Did, Call>, c: Cid)
    requires |CallsOf(calls, c)| == 0
    ensures forall d :: d in calls ==> calls[d].conn != c
  {
    assert forall d :: d in calls ==> (d in CallsOf(calls, c) <==> calls[d].conn == c);
  }

  lemma FewerCalls(s: State, d: Did)
    requires SerialsOk(s.conns, s.calls, s.next, s.started, s.freed)
    ensures SerialsOk(s.conns, s.calls - {d}, s.next, s.started, s.freed)
  {
  }

  // What every drained call does to queue and logs.
  lemma DrainRest(s: State, answered: bool, ok: bool)
    requires Inv(s) && s.pc.Draining? && s.pc.todo != []
    ensures var d := s.pc.todo[0];
            var q := Queue(Draining(s.pc.todo[1..], s.pc.back), s.completed);
            && d in s.calls && s.calls[d].conn in s.conns && s.conns[s.calls[d].conn].serial == s.calls[d].connSerial
            && QueueOk(q, s.calls - {d}, s.attempts)
            && LogsOk(q, s.calls - {d}, s.won, s.queued, s.drained + [s.calls[d].serial], s.started)
            && HandlerOk(Draining(s.pc.todo[1..], s.pc.back), s.calls - {d}, s.attempts)
            && ControlOk(Draining(s.pc.todo[1..], s.pc.back), s.conns)
    ensures var call := s.calls[s.pc.todo[0]];
            var reply := Reply(call.serial, call.connSerial, call.ids, ok);
            RepliesOk(if answered then s.replies + [reply] else s.replies, s.drained + [call.serial], s.started)
  {
    hide ListsOk, CountsOk, RefsOk, SerialsOk, RepliesOk;
    var q := Queue(s.pc, s.completed);
    var d := s.pc.todo[0];
    assert q[0] == d && d in q;
    assert Queue(Draining(s.pc.todo[1..], s.pc.back), s.completed) == q[1..];
    RefOf(s, d);
    DrainReplies(s, d, answered, ok);
    hide QueueOk, LogsOk;
    DrainQueue(q, s);
    DrainLogs(q, s);
  }

  function Drained(s: State, conns: map<Cid, Conn>, freed: seq<nat>, replies: seq<Reply>): State
    requires s.pc.Draining? && s.pc.todo != [] && s.pc.todo[0] in s.calls
  {
    var d := s.pc.todo[0];
    s.(pc := Draining(s.pc.todo[1..], s.pc.back), conns := conns, calls := s.calls - {d},
       drained := s.drained + [s.calls[d].serial], freed := freed, replies := replies)
  }

  lemma DrainKeeps(s: State, answered: bool, ok: bool)
    requires Inv(s) && s.pc.Draining? && s.pc.todo != [] && s.pc.todo[0] in s.calls
    requires s.calls[s.pc.todo[0]].conn in s.conns
    requires var k := s.conns[s.calls[s.pc.todo[0]].conn]; k.pending > 0 && (k.detached ==> k.pending > 1)
    ensures var call := s.calls[s.pc.todo[0]];
            var k := s.conns[call.conn];
            Inv(Drained(s, s.conns[call.conn := k.(pending := k.pending - 1)], s.freed,
                        if answered then s.replies + [Reply(call.serial, call.connSerial, call.ids, ok)]
                        else s.replies))
  {
    hide ListsOk, CountsOk, RefsOk, SerialsOk, LogsOk, RepliesOk, QueueOk, ControlOk, HandlerOk;
    var d := s.pc.todo[0];
    var c := s.calls[d].conn;
    var k := s.conns[c].(pending := s.conns[c].pending - 1);
    DrainRest(s, answered, ok);
    DrainCounts(s, d, k);
    DrainRefs(s, d, k);
    PendingLists(s.conns, s.connections, s.pendingWrites, c, k);
    PendingControl(Draining(s.pc.todo[1..], s.pc.back), s.conns, c, k);
  }

  lemma DrainFrees(s: State)
    requires Inv(s) && s.pc.Draining? && s.pc.todo != [] && s.pc.todo[0] in s.calls
    requires s.calls[s.pc.todo[0]].conn in s.conns
    requires var k := s.conns[s.calls[s.pc.todo[0]].conn]; k.detached && k.pending == 1
    ensures var c := s.calls[s.pc.todo[0]].conn;
            Inv(Drained(s, s.conns - {c}, s.freed + [s.conns[c].serial], s.replies))
  {
    hide ListsOk, CountsOk, RefsOk, SerialsOk, LogsOk, RepliesOk, QueueOk, HandlerOk;
    var d := s.pc.todo[0];
    var c := s.calls[d].conn;
    var pc' := Draining(s.pc.todo[1..], s.pc.back);
    DrainRest(s, false, false);
    DrainFree(s, d);
    GoneLists(s.conns, s.connections, s.pendingWrites, c);
    assert forall i :: 0 <= i < |Events(s.pc)| && Events(s.pc)[i].On? ==> Events(s.pc)[i].c != c;
    FreeControl(pc', s.conns, c);
  }

  // A detached connection is on no list.
  lemma GoneLists(conns: map<Cid, Conn>, connections: seq<Cid>, writes: seq<Cid>, c: Cid)
    requires ListsOk(conns, connections, writes) && c in conns && conns[c].detached
    ensures ListsOk(conns - {c}, connections, writes)
  {
    assert c !in connections && c !in writes;
    ListsWithout(conns, connections, writes, c, conns - {c}, connections, writes);
  }

  // ---------- every step ----------

  // The worker moves on; lists, queue and calls stay as they are.
  lemma Moved(s: State, pc: PC)
    requires Inv(s) && ControlOk(pc, s.conns) && HandlerOk(pc, s.calls, s.attempts)
    requires WriteList(pc, s.pendingWrites) == WriteList(s.pc, s.pendingWrites)
    requires Queue(pc, s.completed) == Queue(s.pc, s.completed)
    ensures Inv(s.(pc := pc))
  {
    hide ListsOk, CountsOk, RefsOk, SerialsOk, LogsOk, RepliesOk, QueueOk, ControlOk, HandlerOk;
  }

  lemma PollInv(s: State, act: Act, s': State)
    requires Inv(s) && WorkStep(s, act, s') && s.pc.Poll?
    ensures Inv(s')
  {
    hide ListsOk, CountsOk, RefsOk, SerialsOk, LogsOk, RepliesOk, QueueOk;
    Moved(s, Batch(act.evs));
    Woken(s.(pc := Batch(act.evs)), s'.wake);
  }

  // Taking the whole completed queue.
  lemma Taken(s: State, back: Option<seq<Event>>)
    requires Inv(s) && s.pc.Batch? && EventsOk(if back.Some? then back.value else [], s.conns)
    ensures Inv(s.(pc := Draining(s.completed, back), completed := []))
  {
    hide ListsOk, CountsOk, RefsOk, SerialsOk, LogsOk, RepliesOk, QueueOk;
    assert Queue(Draining(s.completed, back), []) == s.completed;
  }

  lemma RestOk(evs: seq<Event>, conns: map<Cid, Conn>)
    requires EventsOk(evs, conns) && evs != []
    ensures EventsOk(evs[1..], conns)
    ensures evs[0].On? ==> forall i :: 0 <= i < |evs[1..]| && evs[1..][i].On? ==> evs[1..][i].c != evs[0].c
  {
  }

  lemma BatchInv(s: State, act: Act, s': State)
    requires Inv(s) && s.pc.Batch? && BatchStep(s, s.pc.evs, act, s')
    ensures Inv(s')
  {
    hide ListsOk, CountsOk, RefsOk, SerialsOk, LogsOk, RepliesOk, QueueOk;
    var evs := s.pc.evs;
    if evs == [] {
      Taken(s, None);
    } else {
      RestOk(evs, s.conns);
      match evs[0]
      case Wake => if act.Accepts? { Accepted(s, act.c); } else { Taken(s, Some(evs[1..])); }
      case Listener => Moved(s, Batch(evs[1..]));
      case On(c, read, write) =>
        assert s.pc.evs[0].c in s.conns && !s.conns[c].detached;
        Moved(s, s'.pc);
    }
  }

  lemma ReadInv(s: State, act: Act, s': State)
    requires Inv(s) && s.pc.Reading? && ReadStep(s, s.pc, act, s')
    ensures Inv(s')
  {
    hide ListsOk, CountsOk, RefsOk, SerialsOk, LogsOk, RepliesOk, QueueOk;
    match act
    case Answers => Queued(s, s.pc.c);
    case Strays =>
      Moved(s, Writing(s.pc.c, s.pc.write, s.pc.evs));
      Touched(s.(pc := s'.pc), s.pc.c, s.conns[s.pc.c].(unsent := true, closing := true));
    case Shuts => Touched(s, s.pc.c, s.conns[s.pc.c].(closing := true));
    case Starts(d, ids) => Started(s, d, ids);
    case ReadEnds => Moved(s, Writing(s.pc.c, s.pc.write, s.pc.evs));
  }

  lemma HandleInv(s: State, act: Act, s': State)
    requires Inv(s) && WorkStep(s, act, s') && (s.pc.Handling? || s.pc.Failing?)
    ensures Inv(s')
  {
    hide ListsOk, CountsOk, RefsOk, SerialsOk, LogsOk, RepliesOk, QueueOk;
    var pc := Reading(s.pc.c, s.pc.write, s.pc.evs);
    if s'.pc == pc {
      Moved(s, pc);
    } else {
      var a := Trying(s.pc.d, s.calls[s.pc.d].serial, -1);
      var s1 := s.(pc := s'.pc);
      Moved(s, s'.pc);
      TryQueue(Queue(s.pc, s.completed), s.calls, s.attempts, WORKER, a);
    }
  }

  lemma WriteInv(s: State, act: Act, s': State)
    requires Inv(s) && WorkStep(s, act, s') && s.pc.Writing?
    ensures Inv(s')
  {
    hide ListsOk, CountsOk, RefsOk, SerialsOk, LogsOk, RepliesOk, QueueOk, HandlerOk;
    var c := s.pc.c;
    var pc := Closing(c, s.pc.evs);
    assert HandlerOk(pc, s.calls, s.attempts) by { Idle(s, pc); }
    Moved(s, pc);
    var s1 := s.(pc := pc);
    Touched(s1, c, if s.pc.write && !s.conns[c].closing then Write(s.conns[c], act.sent) else s.conns[c]);
  }

  lemma FlushedLists(conns: map<Cid, Conn>, connections: seq<Cid>, writes: seq<Cid>, k: Conn)
    requires ListsOk(conns, connections, writes) && writes != [] && writes[0] in conns
    requires k.detached == conns[writes[0]].detached && !k.writeQueued
    ensures ListsOk(conns[writes[0] := k], connections, writes[1..])
    ensures !conns[writes[0]].detached
  {
    assert writes[0] in writes && writes[0] !in writes[1..];
    assert forall x :: x in writes <==> x == writes[0] || x in writes[1..];
  }

  lemma FlushInv(s: State, act: Act, s': State)
    requires Inv(s) && WorkStep(s, act, s') && s.pc.Flushing?
    ensures Inv(s')
  {
    hide ListsOk, CountsOk, RefsOk, SerialsOk, LogsOk, RepliesOk, QueueOk, HandlerOk;
    if s.pc.conns == [] {
      assert HandlerOk(Poll, s.calls, s.attempts) by { Idle(s, Poll); }
      assert [] + s.pendingWrites == s.pendingWrites;
      Moved(s, Poll);
    } else {
      FlushOne(s, act.sent);
    }
  }

  lemma FlushOne(s: State, sent: Sent)
    requires Inv(s) && s.pc.Flushing? && s.pc.conns != [] && s.pc.conns[0] in s.conns
    ensures var c := s.pc.conns[0];
            var k := s.conns[c].(writeQueued := false);
            Inv(MaybeClose(SetConn(s, c, if k.unsent then Write(k, sent) else k), c).(pc := Flushing(s.pc.conns[1..])))
  {
    hide ListsOk, CountsOk, RefsOk, SerialsOk, LogsOk, RepliesOk, QueueOk, HandlerOk;
    var c := s.pc.conns[0];
    var k := s.conns[c].(writeQueued := false);
    var k' := if k.unsent then Write(k, sent) else k;
    var pc := Flushing(s.pc.conns[1..]);
    var writes := WriteList(s.pc, s.pendingWrites);
    assert writes[0] == c && WriteList(pc, s.pendingWrites) == writes[1..];
    FlushedLists(s.conns, s.connections, writes, k');
    Touch(s, c, k');
    assert HandlerOk(pc, s.calls, s.attempts) by { Idle(s, pc); }
    var s1 := SetConn(s, c, k').(pc := pc);
    assert Inv(s1);
    hide Inv, MaybeClose;
    Closed(s1, c);
    ClosedAt(SetConn(s, c, k'), c, pc);
  }

  // Closing does not look at where the worker is.
  lemma ClosedAt(s: State, c: Cid, pc: PC)
    requires c in s.conns
    ensures MaybeClose(s.(pc := pc), c) == MaybeClose(s, c).(pc := pc)
  {
    DestroyedAt(s, c, pc);
    hide Destroy;
  }

  lemma DestroyedAt(s: State, c: Cid, pc: PC)
    requires c in s.conns
    ensures Destroy(s.(pc := pc), c) == Destroy(s, c).(pc := pc)
  {
    hide Remove;
    if s.conns[c].detached {} else if s.conns[c].pending != 0 {}
  }

  lemma DrainInv(s: State, act: Act, s': State)
    requires Inv(s) && WorkStep(s, act, s') && s.pc.Draining?
    ensures Inv(s')
  {
    hide ListsOk, CountsOk, RefsOk, SerialsOk, LogsOk, RepliesOk, QueueOk, HandlerOk;
    if s.pc.todo == [] {
      DrainOver(s);
    } else {
      DrainOne(s, act.append);
    }
  }

  lemma DrainOver(s: State)
    requires Inv(s) && s.pc.Draining? && s.pc.todo == []
    ensures Inv(if s.pc.back.Some? then s.(pc := Batch(s.pc.back.value))
                else s.(pc := Flushing(s.pendingWrites), pendingWrites := []))
  {
    hide ListsOk, CountsOk, RefsOk, SerialsOk, LogsOk, RepliesOk, QueueOk, HandlerOk;
    var pc := if s.pc.back.Some? then Batch(s.pc.back.value) else Flushing(s.pendingWrites);
    assert HandlerOk(pc, s.calls, s.attempts) by { Idle(s, pc); }
    assert [] + s.completed == s.completed && s.pendingWrites + [] == s.pendingWrites;
    if s.pc.back.Some? { Moved(s, pc); }
  }

  lemma DrainOne(s: State, append: Append)
    requires Inv(s) && s.pc.Draining? && s.pc.todo != [] && s.pc.todo[0] in s.calls
    requires s.calls[s.pc.todo[0]].conn in s.conns
    ensures Inv(DrainCall(s, s.pc.todo[0], append).(pc := Draining(s.pc.todo[1..], s.pc.back)))
  {
    hide ListsOk, CountsOk, RefsOk, SerialsOk, LogsOk, RepliesOk, QueueOk, HandlerOk, ControlOk;
    var d := s.pc.todo[0];
    var call := s.calls[d];
    var c := call.conn;
    var k := s.conns[c];
    var answers := !k.detached && !k.closing && append.Both?;
    var strays := !k.detached && !k.closing && append.HeaderOnly?;
    DrainCard(s, d);
    RefOf(s, d);
    if answers { Queued(s, c); }
    if strays { Touched(s, c, k.(unsent := true)); }
    var s1 := if answers then QueuePacket(s, c) else if strays then Stray(s, c) else s;
    hide Inv;
    if k.detached && k.pending == 1 {
      DrainFrees(s);
      assert (s.conns[c := k.(pending := 0)]) - {c} == s.conns - {c};
    } else {
      assert k.detached ==> k.pending > 1;
      DrainKeeps(s1, answers, call.result == Some(0));
    }
  }

  lemma WorkInv(s: State, act: Act, s': State)
    requires Inv(s) && WorkStep(s, act, s')
    ensures Inv(s')
  {
    hide Inv;
    match s.pc
    case Poll => PollInv(s, act, s');
    case Batch(_) => BatchInv(s, act, s');
    case Reading(_, _, _) => ReadInv(s, act, s');
    case Handling(_, _, _, _) => HandleInv(s, act, s');
    case Failing(_, _, _, _) => HandleInv(s, act, s');
    case Writing(_, _, _) => WriteInv(s, act, s');
    case Closing(c, evs) => WriteThenClose(s, c, evs);
    case Draining(_, _) => DrainInv(s, act, s');
    case Flushing(_) => FlushInv(s, act, s');
  }

  lemma NextInv(s: State, act: Act, s': State)
    requires Inv(s) && Next(s, act, s')
    ensures Inv(s')
  {
    hide Inv, WorkStep, AttemptStep, BeginStep;
    match act
    case Begin(th, d, rc) => BeginInv(s, th, d, rc, s');
    case Attempt(th) => AttemptInv(s, th, s');
    case Nudge => Woken(s, true);
    case _ => WorkInv(s, act, s');
  }
}
