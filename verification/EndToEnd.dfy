/** Client and server together: what was signed on one side is what the other side gets. */
module EndToEnd {
  import opened Sequences
  import opened Words
  import opened Headers
  import opened Integrity
  import opened Framing
  import opened FramingTheorems
  import opened Serving
  import opened Outgoing
  import opened Sockets
  import opened Connection
  import opened Client

  // ---------- the wire form has one reading ----------

  lemma SameFirst(policy: Policy, p: Framing.Packet, x: seq<byte>, q: Framing.Packet, y: seq<byte>)
    requires Genuine(policy, p) && Genuine(policy, q) && Wire(p) + x <= Wire(q) + y
    ensures p == q && x <= y
  {
    hide Verify, Wire, FrontOf;
    var tail := (Wire(q) + y)[|Wire(p) + x|..];
    assert Wire(q) + y == Wire(p) + x + tail;
    Assoc(Wire(p), x, tail);
    FrontWire(policy, p, x + tail);
    FrontWire(policy, q, y);
    assert y == x + tail;
  }

  // A stream that begins with the wire forms of d and is a prefix of those of ps: d is a prefix of ps.
  lemma {:induction false} WiresPrefix(policy: Policy, d: seq<Framing.Packet>, ps: seq<Framing.Packet>, rest: seq<byte>)
    requires AllGenuine(policy, d) && AllGenuine(policy, ps) && Wires(policy, d) + rest <= Wires(policy, ps)
    ensures d <= ps && rest <= Wires(policy, ps[|d|..])
    decreases |d|
  {
    hide Verify, Wire;
    if d == [] {
      assert ps[0..] == ps && Wires(policy, d) + rest == rest;
    } else {
      Nonempty(policy, ps);
      hide Wires;
      var p, d', q, ps' := d[0], d[1..], ps[0], ps[1..];
      assert d == [p] + d' && ps == [q] + ps';
      WiresCons(policy, p, d');
      WiresCons(policy, q, ps');
      Assoc(Wire(p), Wires(policy, d'), rest);
      SameFirst(policy, p, Wires(policy, d') + rest, q, Wires(policy, ps'));
      WiresPrefix(policy, d', ps', rest);
      assert ps'[|d| - 1..] == ps[|d|..];
    }
  }

  lemma Nonempty(policy: Policy, ps: seq<Framing.Packet>)
    requires AllGenuine(policy, ps)
    ensures ps == [] <==> Wires(policy, ps) == []
  {
  }

  // No prefix of a genuine stream is ever taken for a bad packet.
  lemma NeverBad(policy: Policy, ps: seq<Framing.Packet>, w: seq<byte>)
    requires AllGenuine(policy, ps) && w <= Wires(policy, ps)
    ensures !FrontOf(policy, w).Bad?
  {
    hide Genuine, Wire, FrontOf;
    var all := Wires(policy, ps);
    assert all == w + all[|w|..];
    if ps == [] {
      NothingYet(policy);
    } else {
      assert ps == [ps[0]] + ps[1..];
      WiresCons(policy, ps[0], ps[1..]);
      FrontWire(policy, ps[0], Wires(policy, ps[1..]));
      if !FrontOf(policy, w).More? { FrontExtends(policy, w, all[|w|..]); }
    }
  }

  // ---------- requests ----------

  predicate Sendable(request: Request) {
    request.Request? && ValidOp(request.op) && |request.payload| <= MAX_PAYLOAD
  }

  predicate AllSendable(requests: seq<Request>) {
    forall i :: 0 <= i < |requests| ==> Sendable(requests[i])
  }

  function SignAll(policy: Policy, requests: seq<Request>): (ps: seq<Framing.Packet>)
    requires policy.key.Some? && AllSendable(requests)
    ensures |ps| == |requests|
  {
    if requests == [] then []
    else
      assert Sendable(requests[0]);
      [Signed(policy, requests[0])] + SignAll(policy, requests[1..])
  }

  // Each packet carries the operation, procedure, call and payload it was asked to.
  predicate Carries(p: Framing.Packet, request: Request) {
    request.Request? && p.payload == request.payload && p.header.op == request.op && p.header.flags == 0 &&
    p.header.procId == request.procId && p.header.callId == request.callId && p.header.size == |request.payload|
  }

  lemma {:induction false} SignAllGenuine(policy: Policy, requests: seq<Request>)
    requires policy.key.Some? && AllSendable(requests)
    ensures AllGenuine(policy, SignAll(policy, requests))
    ensures forall i :: 0 <= i < |requests| ==> Carries(SignAll(policy, requests)[i], requests[i])
  {
    hide Genuine, Signed;
    if requests != [] {
      assert Sendable(requests[0]);
      SignedGenuine(policy, requests[0]);
      SignAllGenuine(policy, requests[1..]);
    }
  }

  // The bytes a peer sends for these requests.
  ghost function Stream(policy: Policy, requests: seq<Request>): seq<byte>
    requires policy.key.Some? && AllSendable(requests)
  {
    SignAllGenuine(policy, requests);
    Wires(policy, SignAll(policy, requests))
  }

  // Packets signed and sent by one peer, cut up in any way, are handed to the handlers of a peer with the
  // same flags and key: the same headers and payloads, in the same order, up to a DISCONNECT.
  lemma RequestsArrive(r: Receiver, requests: seq<Request>, chunks: seq<seq<byte>>)
    requires r.policy.key.Some? && AllSendable(requests) && AcceptsAll(r, [], SignAll(r.policy, requests))
    requires Flatten(chunks) == Stream(r.policy, requests)
    ensures var ps := SignAll(r.policy, requests);
            && UpToClose(Feed(r, chunks).handled) == UpToClose(ps)
            && (Open(ps) ==> Feed(r, chunks) == Progress(ps, [], false))
            && forall i :: 0 <= i < |ps| ==> Carries(ps[i], requests[i])
  {
    hide Feed, UpToClose, AcceptsAll, Wires, SignAll, Flatten;
    SignAllGenuine(r.policy, requests);
    Delivered(r, SignAll(r.policy, requests), chunks);
  }

  // The bytes of one request on the wire.
  function WireSize(request: Request): nat
    requires request.Request?
  {
    HEADER_SIZE + |request.payload|
  }

  // How many bytes go out, one request after the other, until one is not taken in full.
  function GoesOut(requests: seq<Request>, scripts: seq<seq<Send>>): nat
    requires AllSendable(requests) && |scripts| == |requests|
  {
    if requests == [] then 0
    else
      assert Sendable(requests[0]);
      var n := Accepts(WireSize(requests[0]), scripts[0]);
      n + if n == WireSize(requests[0]) then GoesOut(requests[1..], scripts[1..]) else 0
  }

  // Every request is taken in full.
  predicate AllTaken(requests: seq<Request>, scripts: seq<seq<Send>>)
    requires AllSendable(requests) && |scripts| == |requests|
  {
    forall i :: 0 <= i < |requests| ==>
      Sendable(requests[i]) && Accepts(WireSize(requests[i]), scripts[i]) == WireSize(requests[i])
  }

  // A kernel that keeps taking something, often enough for each request.
  predicate Patient(requests: seq<Request>, scripts: seq<seq<Send>>)
    requires AllSendable(requests) && |scripts| == |requests|
  {
    forall i :: 0 <= i < |requests| ==>
      Sendable(requests[i]) && Taking(scripts[i]) && WireSize(requests[i]) <= Sends(scripts[i])
  }

  lemma PatientTakesAll(requests: seq<Request>, scripts: seq<seq<Send>>)
    requires AllSendable(requests) && |scripts| == |requests| && Patient(requests, scripts)
    ensures AllTaken(requests, scripts)
  {
    hide Accepts, Taking, Sends;
    forall i | 0 <= i < |requests|
      ensures Sendable(requests[i]) && Accepts(WireSize(requests[i]), scripts[i]) == WireSize(requests[i])
    {
      SendableAt(requests, i);
      AllAccepted(WireSize(requests[i]), scripts[i]);
    }
  }

  lemma OutNext(requests: seq<Request>, scripts: seq<seq<Send>>, i: nat)
    requires AllSendable(requests) && |scripts| == |requests| && i < |requests|
    ensures Sendable(requests[i])
    ensures var n := Accepts(WireSize(requests[i]), scripts[i]);
            GoesOut(requests[i..], scripts[i..]) ==
              n + if n == WireSize(requests[i]) then GoesOut(requests[i + 1..], scripts[i + 1..]) else 0
  {
    hide Sendable, Accepts;
    assert requests[i..][1..] == requests[i + 1..] && scripts[i..][1..] == scripts[i + 1..];
    assert requests[i..][0] == requests[i] && scripts[i..][0] == scripts[i];
    assert Sendable(requests[i]);
  }

  // One `send_packet` after the other, until one fails: what goes out is the stream, or a prefix of it.
  method SendAll(policy: Policy, requests: seq<Request>, scripts: seq<seq<Send>>) returns (ok: bool, sent: seq<byte>)
    requires policy.key.Some? && AllSendable(requests) && |scripts| == |requests|
    ensures sent <= Stream(policy, requests) && |sent| == GoesOut(requests, scripts)
    ensures ok == AllTaken(requests, scripts)
    ensures ok ==> sent == Stream(policy, requests)
  {
    hide Signed, Genuine, Wire, Stream, Sendable, Accepts, GoesOut;
    sent, ok := [], true;
    StreamEmpty(policy);
    assert requests[..0] == [] && requests[0..] == requests && scripts[0..] == scripts;
    var i := 0;
    while i < |requests| && ok
      invariant 0 <= i <= |requests| && (ok ==> sent == Stream(policy, requests[..i]))
      invariant sent <= Stream(policy, requests)
      invariant GoesOut(requests, scripts) == |sent| + if ok then GoesOut(requests[i..], scripts[i..]) else 0
      invariant if ok then AllTaken(requests[..i], scripts[..i]) else !AllTaken(requests, scripts)
      decreases |requests| - i, ok
    {
      StreamNext(policy, requests, i);
      StreamPrefix(policy, requests, i + 1);
      SendableAt(requests, i);
      OutNext(requests, scripts, i);
      var out;
      ok, out := SendPacket(policy, requests[i], scripts[i]);
      assert sent + out <= Stream(policy, requests[..i + 1]);
      sent := sent + out;
      if ok {
        assert AllTaken(requests[..i + 1], scripts[..i + 1]);
        i := i + 1;
      }
    }
    if ok {
      assert requests[..i] == requests && scripts[..i] == scripts;
      assert requests[i..] == [];
      NothingOut();
    }
  }

  lemma NothingOut()
    ensures GoesOut([], []) == 0
  {
  }

  lemma SendableAt(requests: seq<Request>, i: nat)
    requires AllSendable(requests) && i < |requests|
    ensures requests[i].Request? && ValidOp(requests[i].op) && |requests[i].payload| <= MAX_PAYLOAD
  {
    assert Sendable(requests[i]);
  }

  lemma StreamEmpty(policy: Policy)
    requires policy.key.Some?
    ensures Stream(policy, []) == []
  {
  }

  // The stream of one more request.
  lemma StreamNext(policy: Policy, requests: seq<Request>, i: nat)
    requires policy.key.Some? && AllSendable(requests) && i < |requests|
    ensures requests[i].Request? && |requests[i].payload| <= MAX_PAYLOAD && Genuine(policy, Signed(policy, requests[i]))
    ensures Stream(policy, requests[..i + 1]) == Stream(policy, requests[..i]) + Wire(Signed(policy, requests[i]))
  {
    hide Genuine, Wire, Signed, Sendable, Wires;
    SendableAt(requests, i);
    SignedGenuine(policy, requests[i]);
    assert requests[..i + 1] == requests[..i] + [requests[i]];
    SignAllSnoc(policy, requests[..i], requests[i]);
    SignAllGenuine(policy, requests[..i]);
    WiresSnoc(policy, SignAll(policy, requests[..i]), Signed(policy, requests[i]));
  }

  lemma {:induction false} SignAllSnoc(policy: Policy, requests: seq<Request>, last: Request)
    requires policy.key.Some? && AllSendable(requests) && Sendable(last)
    ensures AllSendable(requests + [last])
    ensures SignAll(policy, requests + [last]) == SignAll(policy, requests) + [Signed(policy, last)]
  {
    hide Signed;
    if requests == [] {
      assert requests + [last] == [last] && [last][1..] == [];
    } else {
      SignAllSnoc(policy, requests[1..], last);
      assert (requests + [last])[1..] == requests[1..] + [last];
    }
  }

  lemma {:induction false} StreamPrefix(policy: Policy, requests: seq<Request>, i: nat)
    requires policy.key.Some? && AllSendable(requests) && i <= |requests|
    ensures Stream(policy, requests[..i]) <= Stream(policy, requests)
    decreases |requests| - i
  {
    hide Genuine, Wire, Signed, Sendable, Stream;
    if i == |requests| {
      assert requests[..i] == requests;
    } else {
      StreamNext(policy, requests, i);
      StreamPrefix(policy, requests, i + 1);
    }
  }

  // A client sends requests over a connection that takes partial sends, and a server reads what arrives in
  // chunks: the packets handled are the first of those requested, and all of them once everything got through,
  // as it does when both kernels keep moving bytes.
  method SendAndHandle(server: Host, requests: seq<Request>, scripts: seq<seq<Send>>, polls: seq<Poll>)
    returns (through: bool, handled: seq<Framing.Packet>)
    requires AllSendable(requests) && |scripts| == |requests|
    ensures handled <= SignAll(server.policy, requests)
    ensures forall i :: 0 <= i < |handled| ==> Carries(handled[i], requests[i])
    ensures var ps := SignAll(server.policy, requests);
            AcceptsAll(ReceiverOf(server), [], ps) && Open(ps) ==>
              && (through ==> handled == ps)
              && (Patient(requests, scripts) && Delivering(polls) && GoesOut(requests, scripts) <= Takes(polls) ==>
                    through)
  {
    SignAllGenuine(server.policy, requests);
    hide SignAll, Carries, AcceptsAll, Wires, Open, ReceiverOf, AllGenuine, Patient, AllTaken, GoesOut, Delivering,
      Takes;
    if Patient(requests, scripts) { PatientTakesAll(requests, scripts); }
    var ok, sent := SendAll(server.policy, requests, scripts);
    var taken;
    taken, handled := HandleAll(server, sent, polls, SignAll(server.policy, requests));
    through := ok && taken == |sent|;
  }

  // A server reads some of the wire forms of ps.
  method HandleAll(server: Host, sent: seq<byte>, polls: seq<Poll>, ghost ps: seq<Framing.Packet>)
    returns (taken: nat, handled: seq<Framing.Packet>)
    requires AllGenuine(server.policy, ps) && sent <= Wires(server.policy, ps)
    ensures handled <= ps
    ensures AcceptsAll(ReceiverOf(server), [], ps) && Open(ps) ==>
              && (taken == |sent| && sent == Wires(server.policy, ps) ==> handled == ps)
              && (Delivering(polls) && |sent| <= Takes(polls) ==> taken == |sent|)
  {
    hide AcceptsAll, Wires, Connection.Valid, Flatten, Open, ReceiverOf, AllGenuine, Delivering, Takes, Feed;
    var c := new Connection(server);
    taken := c.Read(sent, polls);
    handled := c.handled;
    NoChunks();
    assert Flatten(c.chunks) == [] + sent[..taken] == sent[..taken];
    ConnectionHandles(c, ps);
    if AcceptsAll(ReceiverOf(server), [], ps) && Open(ps) {
      StaysOpen(server, ps, c.chunks);
      if taken == |sent| && sent == Wires(server.policy, ps) { ConnectionHandlesAll(c, ps); }
    }
  }

  lemma StaysOpen(server: Host, ps: seq<Framing.Packet>, chunks: seq<seq<byte>>)
    requires AllGenuine(server.policy, ps) && AcceptsAll(ReceiverOf(server), [], ps) && Open(ps)
    requires Flatten(chunks) <= Wires(server.policy, ps)
    ensures !Feed(ReceiverOf(server), chunks).closing
  {
    hide AllGenuine, AcceptsAll, Open, Flatten, Wires, Feed;
    DeliveredSoFar(ReceiverOf(server), ps, chunks);
  }

  lemma NoChunks()
    ensures Flatten([]) == []
  {
  }

  // ---------- both buffers ----------

  // A connection that has received any part of the packets ps has handled the first of them ...
  lemma ConnectionHandles(c: Connection, ps: seq<Framing.Packet>)
    requires c.Valid() && AllGenuine(c.server.policy, ps) && Flatten(c.chunks) <= Wires(c.server.policy, ps)
    ensures c.handled <= ps
  {
    hide Feed, Wires, AllGenuine, Flatten, Connection.WriteValid;
    HandledWithin(ReceiverOf(c.server), ps, c.chunks);
  }

  // ... and one that has received them all, of handlers that take them all, has handled all.
  lemma ConnectionHandlesAll(c: Connection, ps: seq<Framing.Packet>)
    requires c.Valid() && AllGenuine(c.server.policy, ps) && AcceptsAll(ReceiverOf(c.server), [], ps) && Open(ps)
    requires Flatten(c.chunks) == Wires(c.server.policy, ps)
    ensures c.handled == ps && c.readLen == 0
  {
    hide Feed, Wires, AcceptsAll, AllGenuine, Flatten, Connection.WriteValid;
    Delivered(ReceiverOf(c.server), ps, c.chunks);
  }

  // A reader that has received some of what a connection sent has delivered the first packets queued there,
  // and will not find a bad one.
  lemma ReaderFollows(c: Connection, reader: Reader)
    requires c.Valid() && Strays(c.pieces) == 0 && reader.Valid() && reader.policy == c.server.policy
    requires reader.received <= c.sent
    ensures reader.delivered <= c.Queued() && AllGenuine(c.server.policy, c.Queued())
    ensures var w := reader.readBuf[reader.readOff..reader.readLen];
            && !FrontOf(reader.policy, w).Bad?
            && (reader.received == Wires(c.server.policy, c.Queued()) && FrontOf(reader.policy, w).More? ==>
                  reader.delivered == c.Queued() && w == [])
  {
    hide FrontOf, Feed, Flow, Account, Connection.ReadValid, PacketsOf, Strays;
    OutputIffNoStray(c.server.policy, c.pieces) by { FlowSound(c); }
    StreamFollows(reader.policy, c.pieces, c.sent, c.Waiting(), reader.received, reader.delivered,
                  reader.readBuf[reader.readOff..reader.readLen]);
  }

  lemma FlowSound(c: Connection)
    requires c.WriteValid()
    ensures Outgoing.Sound(c.server.policy, c.pieces)
  {
    hide Output, Outgoing.Sound;
  }

  lemma StreamFollows(policy: Policy, pieces: seq<Piece>, sent: seq<byte>, waiting: seq<byte>, received: seq<byte>,
                      delivered: seq<Framing.Packet>, w: seq<byte>)
    requires Flow(policy, pieces, sent, waiting) && Strays(pieces) == 0
    requires Account(policy, received, delivered, w) && received <= sent
    ensures delivered <= PacketsOf(pieces) && AllGenuine(policy, PacketsOf(pieces)) && !FrontOf(policy, w).Bad?
    ensures received == Wires(policy, PacketsOf(pieces)) && FrontOf(policy, w).More? ==>
              delivered == PacketsOf(pieces) && w == []
  {
    OutputIffNoStray(policy, pieces);
    hide Wires, AllGenuine, FrontOf, Outgoing.Sound, Output, PacketsOf, Strays;
    var queued := PacketsOf(pieces);
    assert received <= Wires(policy, queued);
    WiresPrefix(policy, delivered, queued, w);
    LaterGenuine(policy, queued, |delivered|);
    NeverBad(policy, queued[|delivered|..], w);
    if received == Wires(policy, queued) && FrontOf(policy, w).More? {
      AllRead(policy, delivered, queued, w);
    }
  }

  lemma LaterGenuine(policy: Policy, ps: seq<Framing.Packet>, n: nat)
    requires AllGenuine(policy, ps) && n <= |ps|
    ensures AllGenuine(policy, ps[n..]) && AllGenuine(policy, ps[..n])
  {
    hide Genuine;
  }

  lemma AllRead(policy: Policy, d: seq<Framing.Packet>, ps: seq<Framing.Packet>, w: seq<byte>)
    requires AllGenuine(policy, ps) && d <= ps && AllGenuine(policy, d)
    requires Wires(policy, d) + w == Wires(policy, ps) && FrontOf(policy, w).More?
    ensures d == ps && w == []
  {
    hide Genuine, Wire, FrontOf;
    var later := ps[|d|..];
    assert ps == d + later;
    LaterGenuine(policy, ps, |d|);
    WiresConcat(policy, d, later);
    assert w == (Wires(policy, d) + w)[|Wires(policy, d)|..] == Wires(policy, later);
    if later != [] {
      assert later == [later[0]] + later[1..];
      WiresCons(policy, later[0], later[1..]);
      FrontWire(policy, later[0], Wires(policy, later[1..]));
    }
  }

  lemma {:induction false} WiresConcat(policy: Policy, a: seq<Framing.Packet>, b: seq<Framing.Packet>)
    requires AllGenuine(policy, a) && AllGenuine(policy, b)
    ensures AllGenuine(policy, a + b) && Wires(policy, a + b) == Wires(policy, a) + Wires(policy, b)
    decreases |b|
  {
    hide Genuine, Wire;
    if b == [] {
      assert a + b == a;
    } else {
      var init := b[..|b| - 1];
      WiresConcat(policy, a, init);
      assert (a + b)[..|a + b| - 1] == a + init;
    }
  }

  // A whole conversation over sync routes: the server handles the requests as they were made, and what the
  // client has read back are the first replies, in the order of the requests.
  lemma Conversation(c: Connection, reader: Reader, requests: seq<Request>)
    requires c.Valid() && Strays(c.pieces) == 0 && reader.Valid() && reader.policy == c.server.policy
    requires AllSendable(requests)
    requires var ps := SignAll(c.server.policy, requests); AcceptsAll(ReceiverOf(c.server), [], ps) && Open(ps)
    requires Flatten(c.chunks) == Stream(c.server.policy, requests)
    requires c.Queued() == Replies(c.server, c.handled) && reader.received <= c.sent
    ensures c.handled == SignAll(c.server.policy, requests)
    ensures reader.delivered <= Replies(c.server, SignAll(c.server.policy, requests))
  {
    SignAllGenuine(c.server.policy, requests);
    hide Connection.Valid, Reader.Valid, AcceptsAll, Wires, SignAll, Flatten, Replies, ReceiverOf;
    ConnectionHandlesAll(c, SignAll(c.server.policy, requests));
    ReaderFollows(c, reader);
  }
}
