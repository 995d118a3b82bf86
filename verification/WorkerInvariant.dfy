/** The inductive invariant of the worker machine. */
module WorkerInvariant {
  import opened Options
  import opened Sequences
  import opened Worker

  // ---------- the two intrusive lists ----------

  // The write list, whether still in the worker or already taken by a flush.
  function WriteList(pc: PC, pendingWrites: seq<Cid>): seq<Cid> {
    if pc.Flushing? then pc.conns + pendingWrites else pendingWrites
  }

  ghost predicate ListsOk(conns: map<Cid, Conn>, connections: seq<Cid>, writes: seq<Cid>) {
    && Distinct(connections) && Distinct(writes)
    && (forall c :: c in connections <==> c in conns && !conns[c].detached)
    && (forall c :: c in writes <==> c in conns && conns[c].writeQueued)
    && (forall c :: c in conns && conns[c].detached ==> !conns[c].writeQueued)
  }

  // ---------- pending calls ----------

  function CallsOf(calls: map<Did, Call>, c: Cid): set<Did> {
    set d | d in calls && calls[d].conn == c
  }

  ghost predicate CountsOk(conns: map<Cid, Conn>, calls: map<Did, Call>) {
    forall c :: c in conns ==>
      conns[c].pending == |CallsOf(calls, c)| && (conns[c].detached ==> conns[c].pending > 0)
  }

  // Every undrained call points to the very allocation it was started on.
  ghost predicate RefsOk(conns: map<Cid, Conn>, calls: map<Did, Call>, started: map<nat, (nat, Ids)>) {
    forall d :: d in calls ==>
      var call := calls[d];
      && d < DEFERRED_CAPACITY
      && call.conn in conns && conns[call.conn].serial == call.connSerial
      && call.serial in started && started[call.serial] == (call.connSerial, call.ids)
  }

  ghost predicate SerialsOk(conns: map<Cid, Conn>, calls: map<Did, Call>, next: nat, started: map<nat, (nat, Ids)>,
                            freed: seq<nat>)
  {
    && (forall c :: c in conns ==> conns[c].serial < next && conns[c].serial !in freed)
    && (forall c, e :: c in conns && e in conns && c != e ==> conns[c].serial != conns[e].serial)
    && (forall d, e :: d in calls && e in calls && d != e ==> calls[d].serial != calls[e].serial)
    && (forall n :: n in started ==> n < next)
    && (forall n :: n in freed ==> n < next)
    && Distinct(freed)
  }

  // ---------- the completed queue ----------

  function Queue(pc: PC, completed: seq<Did>): seq<Did> {
    if pc.Draining? then pc.todo + completed else completed
  }

  // The call an attempt has won and not yet queued.
  function Owned(a: Attempt): Option<Did> {
    if a.Won? || a.Stored? then Some(a.call) else None
  }

  ghost predicate HasOwner(attempts: map<Tid, Attempt>, d: Did) {
    exists th :: th in attempts && Owned(attempts[th]) == Some(d)
  }

  // A completed call is queued, or in the hands of the one attempt that won it.
  ghost predicate QueueOk(q: seq<Did>, calls: map<Did, Call>, attempts: map<Tid, Attempt>) {
    && Distinct(q)
    && (forall d :: d in q ==> d in calls && calls[d].completed && calls[d].result.Some?)
    && (forall th :: th in attempts && Owned(attempts[th]).Some? ==>
          && attempts[th].call in calls && attempts[th].call !in q
          && calls[attempts[th].call].serial == attempts[th].serial
          && calls[attempts[th].call].completed
          && (attempts[th].Stored? ==> calls[attempts[th].call].result.Some?))
    && (forall t, u :: t in attempts && u in attempts && t != u && Owned(attempts[t]).Some? ==>
          Owned(attempts[t]) != Owned(attempts[u]))
    && (forall d :: d in calls && calls[d].completed && d !in q ==> HasOwner(attempts, d))
  }

  function Serials(calls: map<Did, Call>, q: seq<Did>): seq<nat>
    requires forall d :: d in q ==> d in calls
  {
    seq(|q|, i requires 0 <= i < |q| => calls[q[i]].serial)
  }

  // The queue is first in, first out, and nothing is lost or drained twice.
  ghost predicate LogsOk(q: seq<Did>, calls: map<Did, Call>, won: seq<nat>, queued: seq<nat>, drained: seq<nat>,
                         started: map<nat, (nat, Ids)>)
  {
    && (forall d :: d in q ==> d in calls)
    && queued == drained + Serials(calls, q)
    && Distinct(drained) && Distinct(won)
    && (forall n :: n in won ==> n in started)
    && (forall n :: n in drained ==> n in won)
    && (forall d :: d in calls ==> calls[d].serial !in drained && (calls[d].completed <==> calls[d].serial in won))
  }

  // One reply at most for each drained call, with its own ids, to its own connection.
  ghost predicate RepliesOk(replies: seq<Reply>, drained: seq<nat>, started: map<nat, (nat, Ids)>) {
    && (forall i :: 0 <= i < |replies| ==>
          && replies[i].serial in drained && replies[i].serial in started
          && started[replies[i].serial] == (replies[i].connSerial, replies[i].ids))
    && (forall i, j :: 0 <= i < j < |replies| ==> replies[i].serial != replies[j].serial)
  }

  // ---------- control ----------

  function Events(pc: PC): seq<Event> {
    match pc
    case Batch(evs) => evs
    case Reading(_, _, evs) => evs
    case Handling(_, _, _, evs) => evs
    case Failing(_, _, _, evs) => evs
    case Writing(_, _, evs) => evs
    case Closing(_, evs) => evs
    case Draining(_, back) => if back.Some? then back.value else []
    case _ => []
  }

  function Current(pc: PC): Option<Cid> {
    match pc
    case Reading(c, _, _) => Some(c)
    case Handling(_, c, _, _) => Some(c)
    case Failing(_, c, _, _) => Some(c)
    case Writing(c, _, _) => Some(c)
    case Closing(c, _) => Some(c)
    case _ => None
  }

  // The connections the worker still has events for are attached, and so is the one it serves.
  ghost predicate ControlOk(pc: PC, conns: map<Cid, Conn>) {
    && EventsOk(Events(pc), conns)
    && (Current(pc).Some? ==>
          && Current(pc).value in conns && !conns[Current(pc).value].detached
          && (forall i :: 0 <= i < |Events(pc)| && Events(pc)[i].On? ==> Events(pc)[i].c != Current(pc).value))
  }

  // The worker's own attempts happen inside a handler, on calls that are not drained.
  ghost predicate HandlerOk(pc: PC, calls: map<Did, Call>, attempts: map<Tid, Attempt>) {
    && WORKER in attempts
    && (pc.Handling? || pc.Failing? ==> pc.d in calls)
    && (!attempts[WORKER].Ready? ==> pc.Handling? || pc.Failing?)
    && (OnCall(attempts[WORKER]) ==>
          && attempts[WORKER].call in calls && calls[attempts[WORKER].call].serial == attempts[WORKER].serial)
  }

  ghost predicate Inv(s: State) {
    && ListsOk(s.conns, s.connections, WriteList(s.pc, s.pendingWrites))
    && CountsOk(s.conns, s.calls)
    && RefsOk(s.conns, s.calls, s.started)
    && SerialsOk(s.conns, s.calls, s.next, s.started, s.freed)
    && QueueOk(Queue(s.pc, s.completed), s.calls, s.attempts)
    && LogsOk(Queue(s.pc, s.completed), s.calls, s.won, s.queued, s.drained, s.started)
    && RepliesOk(s.replies, s.drained, s.started)
    && ControlOk(s.pc, s.conns)
    && HandlerOk(s.pc, s.calls, s.attempts)
  }

  lemma InitInv(s: State)
    requires Init(s)
    ensures Inv(s)
  {
  }
}
