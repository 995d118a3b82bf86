/** One worker of src/server.c with its connections and deferred calls, as a step machine.

    The worker runs its event loop; any number of foreign threads try to complete or fail deferred
    calls at the same time.  A step is one atomic exchange, one critical section of
    `completed_mutex`, one wake of the backend, or a piece of the worker's private work.  The kernel
    and the handlers choose: which events a poll returns, what a packet asks for, whether an
    allocation or a send succeeds.

    Assumed of the environment: a poll returns at most one event per connection, and nobody touches
    a deferred call after it has been drained.  Async routes are not part of this machine.

    `serial`s and the logs are history variables: a serial names one allocation of an arena slot. */
module Worker {
  import opened Options

  const CONNECTION_CAPACITY: nat := 65536
  const DEFERRED_CAPACITY: nat := 262144
  const U32: nat := 0x1_0000_0000

  type Cid = nat     // slot of the connection arena
  type Did = nat     // slot of the deferred arena
  type Tid = nat
  const WORKER: Tid := 0

  // `unsent`: write_off < write_len.
  datatype Conn = Conn(serial: nat, closing: bool, detached: bool, writeQueued: bool, pending: nat, unsent: bool)

  datatype Ids = Ids(callId: bv64, procId: bv64)

  datatype Call = Call(serial: nat, conn: Cid, connSerial: nat, ids: Ids, completed: bool, result: Option<int>)

  // A `wirecall_deferred_complete` or `_fail` in progress: before the exchange, after winning it,
  // after storing the result, and after queueing the call, when it still owes the worker a wake.
  datatype Attempt =
    | Ready
    | Trying(call: Did, serial: nat, rc: int)
    | Won(call: Did, serial: nat, rc: int)
    | Stored(call: Did, serial: nat)
    | Owing

  datatype Event = Wake | Listener | On(c: Cid, read: bool, write: bool)

  datatype PC =
    | Poll
    | Batch(evs: seq<Event>)
    | Reading(c: Cid, write: bool, evs: seq<Event>)
    | Handling(d: Did, c: Cid, write: bool, evs: seq<Event>)
    | Failing(d: Did, c: Cid, write: bool, evs: seq<Event>)
    | Writing(c: Cid, write: bool, evs: seq<Event>)
    | Closing(c: Cid, evs: seq<Event>)
    | Draining(todo: seq<Did>, back: Option<seq<Event>>)
    | Flushing(conns: seq<Cid>)

  // A packet queued for a drained call: the call, the connection it went to, and its ids.
  datatype Reply = Reply(serial: nat, connSerial: nat, ids: Ids, ok: bool)

  datatype State = State(
    pc: PC,
    conns: map<Cid, Conn>,
    connections: seq<Cid>,
    pendingWrites: seq<Cid>,
    calls: map<Did, Call>,
    completed: seq<Did>,
    attempts: map<Tid, Attempt>,
    wake: bool,                // a wake is pending in the backend
    next: nat,                 // the next serial
    started: map<nat, (nat, Ids)>,  // for each call ever started: its connection's serial and its ids
    freed: seq<nat>,           // serials of the connections returned to the arena
    won: seq<nat>,             // serials of the calls whose exchange was won
    queued: seq<nat>,          // serials of the calls that entered the completed queue
    drained: seq<nat>,         // serials of the calls drained
    replies: seq<Reply>)

  datatype Sent = All | Part | Failed

  // What the two appends of a `queue_packet` put into the write buffer.
  datatype Append = Both | HeaderOnly | Neither

  datatype Act =
    | Begin(th: Tid, d: Did, rc: int)
    | Attempt(th: Tid)
    | Nudge
    | PollReturns(evs: seq<Event>)
    | Accepts(c: Cid)
    | Wakes
    | Skips
    | Enters
    | Answers
    | Strays
    | Shuts
    | Starts(d: Did, ids: Ids)
    | Returns
    | ReturnsError
    | FailReturns
    | ReadEnds
    | Writes(sent: Sent)
    | Closes
    | BatchEnds
    | Drains(append: Append)
    | DrainEnds
    | Flushes(sent: Sent)
    | FlushEnds

  function Remove(l: seq<Cid>, c: Cid): (r: seq<Cid>)
    ensures forall x :: x in r ==> x in l
  {
    if l == [] then [] else if l[0] == c then l[1..] else [l[0]] + Remove(l[1..], c)
  }

  // `connection_destroy`: detach if still attached, and free the slot unless calls are pending.
  function Destroy(s: State, c: Cid): State
    requires c in s.conns
  {
    var k := s.conns[c];
    var s1 := if k.detached then s
              else s.(connections := Remove(s.connections, c),
                      pendingWrites := if k.writeQueued then Remove(s.pendingWrites, c) else s.pendingWrites,
                      conns := s.conns[c := k.(detached := true, writeQueued := false, unsent := false)]);
    if k.pending != 0 then s1
    else s1.(conns := s1.conns - {c}, freed := s1.freed + [k.serial])
  }

  function MaybeClose(s: State, c: Cid): State
    requires c in s.conns
  {
    if s.conns[c].closing && !s.conns[c].unsent then Destroy(s, c) else s
  }

  // `queue_packet` succeeding: output to send, and the connection on the write list.
  function QueuePacket(s: State, c: Cid): State
    requires c in s.conns
  {
    var k := s.conns[c];
    s.(conns := s.conns[c := k.(unsent := true, writeQueued := true)],
       pendingWrites := if k.writeQueued then s.pendingWrites else [c] + s.pendingWrites)
  }

  function SetConn(s: State, c: Cid, k: Conn): State {
    s.(conns := s.conns[c := k])
  }

  // `queue_packet` failing at its second append: a header to send, and the connection on no list.
  function Stray(s: State, c: Cid): State
    requires c in s.conns
  {
    SetConn(s, c, s.conns[c].(unsent := true))
  }

  // `connection_write` with something to send.
  function Write(k: Conn, sent: Sent): Conn {
    match sent
    case All => k.(unsent := false)
    case Part => k
    case Failed => k.(closing := true)
  }

  // One call of `worker_drain_completed`'s loop.
  function DrainCall(s: State, d: Did, append: Append): State
    requires d in s.calls && s.calls[d].conn in s.conns
  {
    var call := s.calls[d];
    var c := call.conn;
    var k := s.conns[c];
    var answers := !k.detached && !k.closing && append.Both?;
    var s1 := if answers then QueuePacket(s, c)
              else if !k.detached && !k.closing && append.HeaderOnly? then Stray(s, c) else s;
    var k1 := s1.conns[c];
    var s2 := s1.(conns := s1.conns[c := if k1.pending > 0 then k1.(pending := k1.pending - 1) else k1],
                  calls := s1.calls - {d},
                  drained := s1.drained + [call.serial],
                  replies := if answers
                             then s1.replies + [Reply(call.serial, k.serial, call.ids, call.result == Some(0))]
                             else s1.replies);
    if s2.conns[c].detached && s2.conns[c].pending == 0 then Destroy(s2, c) else s2
  }

  // ---------- foreign threads ----------

  predicate OnCall(a: Attempt) {
    a.Trying? || a.Won? || a.Stored?
  }

  // The exchange finds the call completed, or completes it.
  function Lose(s: State, th: Tid): State {
    s.(attempts := s.attempts[th := Ready])
  }

  function Win(s: State, th: Tid, d: Did, rc: int): State
    requires d in s.calls
  {
    var n := s.calls[d].serial;
    s.(attempts := s.attempts[th := Won(d, n, rc)],
       calls := s.calls[d := s.calls[d].(completed := true)],
       won := s.won + [n])
  }

  function Store(s: State, th: Tid, d: Did, rc: int): State
    requires d in s.calls
  {
    s.(attempts := s.attempts[th := Stored(d, s.calls[d].serial)],
       calls := s.calls[d := s.calls[d].(result := Some(rc))])
  }

  // The two halves of `worker_queue_completed`.
  function Push(s: State, th: Tid, d: Did): State
    requires d in s.calls
  {
    s.(attempts := s.attempts[th := Owing], completed := s.completed + [d], queued := s.queued + [s.calls[d].serial])
  }

  function WakeUp(s: State, th: Tid): State {
    s.(attempts := s.attempts[th := Ready], wake := true)
  }

  ghost predicate AttemptStep(s: State, th: Tid, s': State) {
    && th in s.attempts
    && var a := s.attempts[th];
       && (OnCall(a) ==> a.call in s.calls && s.calls[a.call].serial == a.serial)
       && match a
          case Ready => false
          case Trying(d, _, rc) => s' == if s.calls[d].completed then Lose(s, th) else Win(s, th, d, rc)
          case Won(d, _, rc) => s' == Store(s, th, d, rc)
          case Stored(d, _) => s' == Push(s, th, d)
          case Owing => s' == WakeUp(s, th)
  }

  ghost predicate BeginStep(s: State, th: Tid, d: Did, rc: int, s': State) {
    && th in s.attempts && s.attempts[th].Ready?
    && (th == WORKER ==> s.pc.Handling?)
    && d in s.calls
    && s' == s.(attempts := s.attempts[th := Trying(d, s.calls[d].serial, rc)])
  }

  // ---------- the worker ----------

  // A poll returns events of attached connections, each at most once.
  ghost predicate EventsOk(evs: seq<Event>, conns: map<Cid, Conn>) {
    && (forall i :: 0 <= i < |evs| && evs[i].On? ==> evs[i].c in conns && !conns[evs[i].c].detached)
    && (forall i, j :: 0 <= i < j < |evs| && evs[i].On? && evs[j].On? ==> evs[i].c != evs[j].c)
  }

  ghost predicate ReadStep(s: State, pc: PC, act: Act, s': State)
    requires pc.Reading?
  {
    && pc.c in s.conns
    && var k := s.conns[pc.c];
       match act
       case Answers => !k.detached && s' == QueuePacket(s, pc.c)
       case Strays =>
         && !k.detached
         && s' == SetConn(s, pc.c, k.(unsent := true, closing := true)).(pc := Writing(pc.c, pc.write, pc.evs))
       case Shuts => s' == SetConn(s, pc.c, k.(closing := true))
       case Starts(d, ids) =>
         && d !in s.calls && d < DEFERRED_CAPACITY
         && s' == s.(pc := Handling(d, pc.c, pc.write, pc.evs),
                     conns := s.conns[pc.c := k.(pending := (k.pending + 1) % U32)],
                     calls := s.calls[d := Call(s.next, pc.c, k.serial, ids, false, None)],
                     started := s.started[s.next := (k.serial, ids)],
                     next := s.next + 1)
       case ReadEnds => s' == s.(pc := Writing(pc.c, pc.write, pc.evs))
       case _ => false
  }

  ghost predicate BatchStep(s: State, evs: seq<Event>, act: Act, s': State) {
    if evs == [] then
      act.BatchEnds? && s' == s.(pc := Draining(s.completed, None), completed := [])
    else
      match evs[0]
      case Wake =>
        (match act
         case Accepts(c) =>
           && c !in s.conns && c < CONNECTION_CAPACITY
           && s' == s.(conns := s.conns[c := Conn(s.next, false, false, false, 0, false)],
                       connections := [c] + s.connections,
                       next := s.next + 1)
         case Wakes => s' == s.(pc := Draining(s.completed, Some(evs[1..])), completed := [])
         case _ => false)
      case Listener => act.Skips? && s' == s.(pc := Batch(evs[1..]))
      case On(c, read, write) =>
        && act.Enters?
        && c in s.conns
        && s' == s.(pc := if read && !s.conns[c].closing then Reading(c, write, evs[1..])
                          else Writing(c, write, evs[1..]))
  }

  ghost predicate WorkStep(s: State, act: Act, s': State) {
    match s.pc
    case Poll =>
      && act.PollReturns?
      && EventsOk(act.evs, s.conns) && (Wake in act.evs ==> s.wake)
      && s' == s.(pc := Batch(act.evs), wake := s.wake && Wake !in act.evs)
    case Batch(evs) => BatchStep(s, evs, act, s')
    case Reading(_, _, _) => ReadStep(s, s.pc, act, s')
    case Handling(d, c, write, evs) =>
      && WORKER in s.attempts && s.attempts[WORKER].Ready?
      && d in s.calls
      && (match act
          case Returns => s' == s.(pc := Reading(c, write, evs))
          case ReturnsError =>
            s' == if s.calls[d].completed then s.(pc := Reading(c, write, evs))
                  else s.(pc := Failing(d, c, write, evs),
                          attempts := s.attempts[WORKER := Trying(d, s.calls[d].serial, -1)])
          case _ => false)
    case Failing(_, c, write, evs) =>
      && act.FailReturns?
      && WORKER in s.attempts && s.attempts[WORKER].Ready?
      && s' == s.(pc := Reading(c, write, evs))
    case Writing(c, write, evs) =>
      && act.Writes?
      && c in s.conns
      && s' == SetConn(s, c, if write && !s.conns[c].closing then Write(s.conns[c], act.sent) else s.conns[c])
               .(pc := Closing(c, evs))
    case Closing(c, evs) => act.Closes? && c in s.conns && s' == MaybeClose(s, c).(pc := Batch(evs))
    case Draining(todo, back) =>
      if todo == [] then
        && act.DrainEnds?
        && s' == if back.Some? then s.(pc := Batch(back.value))
                 else s.(pc := Flushing(s.pendingWrites), pendingWrites := [])
      else
        && act.Drains?
        && todo[0] in s.calls && s.calls[todo[0]].conn in s.conns
        && s' == DrainCall(s, todo[0], act.append).(pc := Draining(todo[1..], back))
    case Flushing(conns) =>
      if conns == [] then act.FlushEnds? && s' == s.(pc := Poll)
      else
        && act.Flushes?
        && conns[0] in s.conns
        && var k := s.conns[conns[0]].(writeQueued := false);
           s' == MaybeClose(SetConn(s, conns[0], if k.unsent then Write(k, act.sent) else k), conns[0])
                 .(pc := Flushing(conns[1..]))
  }

  ghost predicate Next(s: State, act: Act, s': State) {
    match act
    case Begin(th, d, rc) => BeginStep(s, th, d, rc, s')
    case Attempt(th) => AttemptStep(s, th, s')
    case Nudge => s' == s.(wake := true)
    case _ => WorkStep(s, act, s')
  }

  ghost predicate Init(s: State) {
    && s.pc.Poll? && s.conns == map[] && s.connections == [] && s.pendingWrites == [] && s.calls == map[]
    && s.completed == [] && !s.wake && s.next == 0 && s.started == map[] && s.freed == []
    && s.won == [] && s.queued == [] && s.drained == [] && s.replies == []
    && WORKER in s.attempts
    && forall th :: th in s.attempts ==> s.attempts[th].Ready?
  }

  ghost predicate Run(states: seq<State>, acts: seq<Act>) {
    && |states| == |acts| + 1
    && Init(states[0])
    && forall i :: 0 <= i < |acts| ==> Next(states[i], acts[i], states[i + 1])
  }
}
