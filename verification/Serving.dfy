/** What a server queues in answer to the packets it handles: `handle_packet` and `queue_packet` of
    src/server.c, with handlers as deterministic oracles. */
module Serving {
  import opened Options
  import opened Words
  import opened Headers
  import opened Integrity
  import opened Framing
  import opened FramingTheorems
  import Payload

  type Message = m: seq<byte> | |m| < U32_LIMIT

  // How a procedure ends: a response, an error text, or nothing yet (a deferred call).
  datatype Reply = Respond(payload: seq<byte>) | Fail(message: Message) | Later

  // Which append to the write buffer finds no memory, if any.
  datatype Memory = Enough | NoHeader | NoPayload

  // `reply` and `memory` are asked with the packets handled so far, the current one last.
  datatype Server = Server(policy: Policy, reply: seq<Packet> -> Reply, memory: seq<Packet> -> Memory)

  // A server always has a key to pass on, whether it uses it or not.
  type Host = s: Server | s.policy.key.Some?
    witness Server(Policy(false, false, Some(seq(16, _ => 0))), _ => Later, _ => Enough)

  // The arguments of `queue_packet`, if it is called.
  datatype Request = Silent | Request(op: byte, procId: bv64, callId: bv64, payload: seq<byte>)

  // "unsupported operation"
  const UNSUPPORTED: Message :=
    [117, 110, 115, 117, 112, 112, 111, 114, 116, 101, 100, 32, 111, 112, 101, 114, 97, 116, 105, 111, 110]

  function ErrorReply(p: Packet, message: Message): Request {
    Request(OP_ERROR, p.header.procId, p.header.callId, Payload.Encode(Payload.Str(message)))
  }

  // The dispatch of `handle_packet`.
  function Wanted(server: Server, h: seq<Packet>): Request
    requires h != []
  {
    var p := h[|h| - 1];
    if p.header.op == OP_PING then Request(OP_RESPONSE, 0, p.header.callId, [])
    else if p.header.op == OP_DISCONNECT then Silent
    else if p.header.op == OP_RPC then
      match server.reply(h)
      case Respond(payload) => Request(OP_RESPONSE, p.header.procId, p.header.callId, payload)
      case Fail(message) => ErrorReply(p, message)
      case Later => Silent
    else ErrorReply(p, UNSUPPORTED)
  }

  // Whether `queue_packet` returns 0.
  predicate Queued(request: Request, memory: Memory) {
    request.Request? && |request.payload| <= MAX_PAYLOAD &&
    (memory.Enough? || (memory.NoPayload? && request.payload == []))
  }

  predicate Answered(server: Server, h: seq<Packet>) {
    h != [] && (Wanted(server, h).Silent? || Queued(Wanted(server, h), server.memory(h)))
  }

  function ReceiverOf(server: Server): Receiver {
    Receiver(server.policy, h => Answered(server, h))
  }

  function Plain(request: Request): Header
    requires request.Request?
  {
    Header(request.op, 0, request.procId, |request.payload|, request.callId, 0, 0)
  }

  // The packet that `queue_packet` signs.
  function Signed(policy: Policy, request: Request): Packet
    requires policy.key.Some? && request.Request? && |request.payload| <= MAX_PAYLOAD
  {
    Packet(Sign(Plain(request), request.payload, policy).value, request.payload)
  }

  // A signed packet is one that a peer with the same policy takes from the wire.
  lemma SignedGenuine(policy: Policy, request: Request)
    requires policy.key.Some? && request.Request? && |request.payload| <= MAX_PAYLOAD && ValidOp(request.op)
    ensures Genuine(policy, Signed(policy, request))
    ensures var s := Signed(policy, request);
            s.payload == request.payload
            && s.header == Plain(request).(checksum := s.header.checksum, mac := s.header.mac)
  {
    hide Verify;
    assert Sign(Plain(request), request.payload, policy).Some? by { SignSucceeds(policy, request); }
    hide Sign;
    SignedVerifies(Plain(request), request.payload, policy);
  }

  lemma SignSucceeds(policy: Policy, request: Request)
    requires policy.key.Some? && request.Request? && |request.payload| <= MAX_PAYLOAD
    ensures Sign(Plain(request), request.payload, policy).Some?
  {
  }

  function ReplyTo(server: Host, h: seq<Packet>): seq<Packet>
    requires h != []
  {
    var request := Wanted(server, h);
    if Queued(request, server.memory(h)) then [Signed(server.policy, request)] else []
  }

  // Everything queued in answer to a history.
  function Replies(server: Host, h: seq<Packet>): seq<Packet>
  {
    if h == [] then [] else Replies(server, h[..|h| - 1]) + ReplyTo(server, h)
  }

  lemma WantedOp(server: Server, h: seq<Packet>)
    requires h != [] && Wanted(server, h).Request?
    ensures ValidOp(Wanted(server, h).op)
  {
    hide Payload.Encode;
  }

  lemma {:induction false} RepliesGenuine(server: Host, h: seq<Packet>)
    ensures AllGenuine(server.policy, Replies(server, h))
  {
    hide Genuine, Signed, Wanted;
    if h != [] {
      RepliesGenuine(server, h[..|h| - 1]);
      var request := Wanted(server, h);
      if Queued(request, server.memory(h)) {
        WantedOp(server, h);
        SignedGenuine(server.policy, request);
      }
    }
  }

  // An error packet decodes to its text.
  predicate Reports(r: Packet, message: Message) {
    r.header.op == OP_ERROR && Payload.Decode(r.payload) == Some([Payload.Str(message)])
  }

  lemma ErrorDecodes(message: Message)
    ensures Payload.Decode(Payload.Encode(Payload.Str(message))) == Some([Payload.Str(message)])
  {
    hide Payload.Encode, Payload.Decode;
    var v := Payload.Str(message);
    assert [v][..0] == [] && Payload.EncodeAll([]) == [];
    assert Payload.EncodeAll([v]) == Payload.Encode(v);
    Payload.DecodeEncode([v]);
  }

  // What the reply to a packet says: it names the call and the procedure it answers, a ping gets an empty
  // response, a procedure's response or error text comes through, other operations are refused.
  predicate Answers(server: Server, h: seq<Packet>, r: Packet)
    requires h != []
  {
    var p := h[|h| - 1];
    && r.header.callId == p.header.callId && r.header.flags == 0
    && (p.header.op == OP_PING ==> r.header.op == OP_RESPONSE && r.header.procId == 0 && r.payload == [])
    && (p.header.op != OP_PING ==> r.header.procId == p.header.procId)
    && (p.header.op == OP_RPC ==>
          match server.reply(h)
          case Respond(payload) => r.header.op == OP_RESPONSE && r.payload == payload
          case Fail(message) => Reports(r, message)
          case Later => false)
    && (p.header.op == OP_RESPONSE || p.header.op == OP_ERROR ==> Reports(r, UNSUPPORTED))
    && p.header.op != OP_DISCONNECT
  }

  lemma ReplyAnswers(server: Host, h: seq<Packet>)
    requires h != []
    ensures |ReplyTo(server, h)| <= 1
    ensures forall r :: r in ReplyTo(server, h) ==> Genuine(server.policy, r) && Answers(server, h, r)
  {
    hide Payload.Encode, Payload.Decode, Sign, Verify;
    var p := h[|h| - 1];
    var request := Wanted(server, h);
    ErrorDecodes(UNSUPPORTED);
    if p.header.op == OP_RPC && server.reply(h).Fail? { ErrorDecodes(server.reply(h).message); }
    if Queued(request, server.memory(h)) {
      WantedOp(server, h);
      SignedGenuine(server.policy, request);
      assert Answers(server, h, Signed(server.policy, request));
    }
  }

  // Whether a packet is due an answer: all are but a DISCONNECT and a call that is deferred.
  predicate Due(server: Server, h: seq<Packet>)
    requires h != []
  {
    var op := h[|h| - 1].header.op;
    op != OP_DISCONNECT && (op == OP_RPC ==> !server.reply(h).Later?)
  }

  // The size of the answer: nothing for a ping, what the procedure wrote, or an error text with its 5-byte prefix.
  function DueSize(server: Server, h: seq<Packet>): nat
    requires h != []
  {
    var op := h[|h| - 1].header.op;
    if op == OP_PING then 0
    else if op == OP_RPC && server.reply(h).Respond? then |server.reply(h).payload|
    else 5 + |if op == OP_RPC && server.reply(h).Fail? then server.reply(h).message else UNSUPPORTED|
  }

  // Whether the buffer can take an answer of that size.
  predicate HasRoom(size: nat, memory: Memory) {
    size <= MAX_PAYLOAD && !memory.NoHeader? && (memory.NoPayload? ==> size == 0)
  }

  lemma TextSize(message: Message)
    ensures |Payload.Encode(Payload.Str(message))| == 5 + |message|
  {
    hide PutU32, Bits32;
  }

  // A packet that is due an answer gets exactly one if the buffer can take it, and fails otherwise; any other packet
  // gets none and does not fail.
  lemma AnsweredIff(server: Host, h: seq<Packet>)
    requires h != []
    ensures |ReplyTo(server, h)| == if Due(server, h) && HasRoom(DueSize(server, h), server.memory(h)) then 1 else 0
    ensures ReceiverOf(server).accepts(h) <==> (Due(server, h) ==> HasRoom(DueSize(server, h), server.memory(h)))
  {
    hide Payload.Encode, Signed;
    var op := h[|h| - 1].header.op;
    TextSize(UNSUPPORTED);
    if op == OP_RPC && server.reply(h).Fail? { TextSize(server.reply(h).message); }
  }

  lemma RepliesStep(server: Host, h: seq<Packet>, p: Packet)
    ensures Replies(server, h + [p]) == Replies(server, h) + ReplyTo(server, h + [p])
  {
    assert (h + [p])[..|h|] == h;
  }

  // ---------- chunkings that disagree ----------

  function Bye(policy: Policy): Packet
    requires policy.key.Some?
  {
    Signed(policy, Request(OP_DISCONNECT, 0, 1, []))
  }

  function Ping(policy: Policy): Packet
    requires policy.key.Some?
  {
    Signed(policy, Request(OP_PING, 0, 2, []))
  }

  lemma ByePing(policy: Policy)
    requires policy.key.Some?
    ensures Genuine(policy, Bye(policy)) && Disconnects(Bye(policy))
    ensures Genuine(policy, Ping(policy)) && Ping(policy).header.op == OP_PING
  {
    hide Verify, Sign, Signed;
    SignedGenuine(policy, Request(OP_DISCONNECT, 0, 1, []));
    SignedGenuine(policy, Request(OP_PING, 0, 2, []));
  }

  // On any server that can answer a ping, whatever its flags and key: a DISCONNECT and a PING that arrive
  // together are both handled, one after the other only the DISCONNECT.
  lemma ByeThenPing(server: Host)
    requires !server.memory([Bye(server.policy), Ping(server.policy)]).NoHeader?
    ensures Genuine(server.policy, Bye(server.policy)) && Genuine(server.policy, Ping(server.policy))
    ensures !SameForAllChunkings(ReceiverOf(server), Wire(Bye(server.policy)) + Wire(Ping(server.policy)))
  {
    ByePing(server.policy);
    hide Bye, Ping, Genuine, Wire, SameForAllChunkings;
    var bye, ping := Bye(server.policy), Ping(server.policy);
    assert Answered(server, [bye, ping]);
    ChunkingMatters(ReceiverOf(server), bye, ping);
  }

  // A server with both codes on and a key of zeros.
  const ZERO_KEY: Host := Server(Policy(true, true, Some(seq(16, _ => 0))), _ => Later, _ => Enough)

  lemma Example()
    ensures var policy := ZERO_KEY.policy;
            && Genuine(policy, Bye(policy)) && Genuine(policy, Ping(policy))
            && !SameForAllChunkings(ReceiverOf(ZERO_KEY), Wire(Bye(policy)) + Wire(Ping(policy)))
  {
    hide Bye, Ping, Genuine, Wire, SameForAllChunkings, ReceiverOf;
    ByeThenPing(ZERO_KEY);
  }
}
