/** Packets in a byte stream: what one pass of `parse_available` hands to `handle_packet`, and what
    a connection that receives the stream in chunks does (src/server.c). */
module Framing {
  import opened Words
  import opened Headers
  import opened Checksum
  import opened Integrity

  datatype Packet = Packet(header: Header, payload: seq<byte>)

  // ---------- the front of a stream ----------

  datatype Front = More | Bad | Got(packet: Packet)

  function FrontOf(policy: Policy, s: seq<byte>): Front {
    if |s| < HEADER_SIZE then More
    else match Decode(s[..HEADER_SIZE])
      case None => Bad
      case Some(h) =>
        if |s| - HEADER_SIZE < h.size then More
        else if Verify(h, s[HEADER_SIZE..HEADER_SIZE + h.size], policy)
        then Got(Packet(h, s[HEADER_SIZE..HEADER_SIZE + h.size]))
        else Bad
  }

  function Size(p: Packet): nat { HEADER_SIZE + p.header.size }

  // A packet as a peer with this policy puts it on the wire.
  predicate Genuine(policy: Policy, p: Packet) {
    Encodable(p.header) && Verify(p.header, p.payload, policy)
  }

  function Wire(p: Packet): (r: seq<byte>)
    requires Encodable(p.header)
    ensures |r| == HEADER_SIZE + |p.payload|
  {
    Layout(p.header) + p.payload
  }

  lemma GenuineSize(policy: Policy, p: Packet)
    requires Genuine(policy, p)
    ensures |p.payload| == p.header.size && |Wire(p)| == Size(p)
  {
    hide PacketChecksum, PacketMac, Layout;
  }

  // The front of a stream that begins with a genuine packet is that packet ...
  lemma FrontWire(policy: Policy, p: Packet, rest: seq<byte>)
    requires Genuine(policy, p)
    ensures FrontOf(policy, Wire(p) + rest) == Got(p) && (Wire(p) + rest)[Size(p)..] == rest
  {
    GenuineSize(policy, p);
    hide Verify, Layout, Decode;
    var s := Wire(p) + rest;
    assert s[..HEADER_SIZE] == Layout(p.header);
    assert s[HEADER_SIZE..HEADER_SIZE + p.header.size] == p.payload;
    DecodeEncode(p.header);
  }

  // ... and a stream whose front is a packet begins with its wire form.
  lemma FrontGot(policy: Policy, s: seq<byte>)
    requires FrontOf(policy, s).Got?
    ensures var p := FrontOf(policy, s).packet;
            Genuine(policy, p) && Size(p) <= |s| && s == Wire(p) + s[Size(p)..]
  {
    hide Verify, Layout, Decode;
    var p := FrontOf(policy, s).packet;
    EncodeDecode(s[..HEADER_SIZE]);
    GenuineSize(policy, p);
    assert s == s[..HEADER_SIZE] + s[HEADER_SIZE..Size(p)] + s[Size(p)..];
  }

  // So the front of a stream is a packet exactly when the stream begins with that packet's wire form ...
  lemma GotIff(policy: Policy, s: seq<byte>, p: Packet)
    ensures FrontOf(policy, s) == Got(p) <==> Genuine(policy, p) && Wire(p) <= s
  {
    hide Verify, Layout, Decode, FrontOf, Wire;
    if FrontOf(policy, s) == Got(p) { FrontGot(policy, s); }
    if Genuine(policy, p) && Wire(p) <= s {
      FrontWire(policy, p, s[|Wire(p)|..]);
      assert s == Wire(p) + s[|Wire(p)|..];
    }
  }

  // ... and more bytes are wanted exactly when the header, or the payload it announces, is cut short.
  lemma MoreIff(policy: Policy, s: seq<byte>)
    ensures FrontOf(policy, s).More? <==>
              || |s| < HEADER_SIZE
              || exists h :: Encodable(h) && Layout(h) == s[..HEADER_SIZE] && |s| < HEADER_SIZE + h.size
  {
    hide Verify, Layout, Decode;
    if HEADER_SIZE <= |s| {
      if Decode(s[..HEADER_SIZE]).Some? { EncodeDecode(s[..HEADER_SIZE]); }
      forall h | Encodable(h) && Layout(h) == s[..HEADER_SIZE]
        ensures Decode(s[..HEADER_SIZE]).Some? && Decode(s[..HEADER_SIZE]).value == h
      {
        DecodeEncode(h);
      }
    }
  }

  // Bytes that arrive later change nothing once the front is decided.
  lemma FrontExtends(policy: Policy, s: seq<byte>, t: seq<byte>)
    requires !FrontOf(policy, s).More?
    ensures FrontOf(policy, s + t) == FrontOf(policy, s)
  {
    hide Verify, Decode;
    assert (s + t)[..HEADER_SIZE] == s[..HEADER_SIZE];
    var d := Decode(s[..HEADER_SIZE]);
    if d.Some? {
      var n := HEADER_SIZE + d.value.size;
      assert (s + t)[HEADER_SIZE..n] == s[HEADER_SIZE..n];
    }
  }

  // Fewer bytes are never enough for a verdict other than on the header.
  lemma FrontBound(policy: Policy, s: seq<byte>)
    requires FrontOf(policy, s).More?
    ensures |s| < HEADER_SIZE + MAX_PAYLOAD
  {
    hide Verify;
  }

  // ---------- one pass over a buffer ----------

  // The receiver: its policy, and whether `handle_packet` returns 0 for the last packet of a history.
  datatype Receiver = Receiver(policy: Policy, accepts: seq<Packet> -> bool)

  // What has been handed to `handle_packet`, the unconsumed bytes, and the `closing` flag.
  datatype Progress = Progress(handled: seq<Packet>, rest: seq<byte>, closing: bool)

  predicate Disconnects(p: Packet) { p.header.op == OP_DISCONNECT }

  // A DISCONNECT is always accepted.
  predicate Accepted(r: Receiver, past: seq<Packet>, p: Packet) {
    Disconnects(p) || r.accepts(past + [p])
  }

  // `parse_available`: a DISCONNECT marks the connection, the loop goes on.
  function Parse(r: Receiver, past: seq<Packet>, s: seq<byte>): Progress
    decreases |s|
  {
    match FrontOf(r.policy, s)
    case More => Progress(past, s, false)
    case Bad => Progress(past, s, true)
    case Got(p) =>
      if !Accepted(r, past, p) then Progress(past + [p], s, true)
      else
        FrontGot(r.policy, s);
        var next := Parse(r, past + [p], s[Size(p)..]);
        next.(closing := next.closing || Disconnects(p))
  }

  // The same up to and including the first closing event.
  function Until(r: Receiver, past: seq<Packet>, s: seq<byte>): Progress
    decreases |s|
  {
    match FrontOf(r.policy, s)
    case More => Progress(past, s, false)
    case Bad => Progress(past, s, true)
    case Got(p) =>
      if !Accepted(r, past, p) then Progress(past + [p], s, true)
      else
        FrontGot(r.policy, s);
        if Disconnects(p) then Progress(past + [p], s[Size(p)..], true)
        else Until(r, past + [p], s[Size(p)..])
  }

  // One step of each pass, and the ways they end.
  lemma ParseOne(r: Receiver, past: seq<Packet>, s: seq<byte>, p: Packet)
    requires FrontOf(r.policy, s) == Got(p) && Size(p) <= |s| && Accepted(r, past, p)
    ensures var next := Parse(r, past + [p], s[Size(p)..]);
            Parse(r, past, s) == next.(closing := next.closing || Disconnects(p))
  {
    hide FrontOf, Accepted;
  }

  lemma ParseStop(r: Receiver, past: seq<Packet>, s: seq<byte>)
    ensures var front := FrontOf(r.policy, s);
            && (front.More? ==> Parse(r, past, s) == Progress(past, s, false))
            && (front.Bad? ==> Parse(r, past, s) == Progress(past, s, true))
            && (front.Got? && !Accepted(r, past, front.packet) ==>
                  Parse(r, past, s) == Progress(past + [front.packet], s, true))
  {
    hide FrontOf, Accepted;
  }

  lemma UntilOne(r: Receiver, past: seq<Packet>, s: seq<byte>, p: Packet)
    requires FrontOf(r.policy, s) == Got(p) && Size(p) <= |s| && Accepted(r, past, p)
    ensures Until(r, past, s) == if Disconnects(p) then Progress(past + [p], s[Size(p)..], true)
                                 else Until(r, past + [p], s[Size(p)..])
  {
    hide FrontOf, Accepted;
  }

  lemma UntilStop(r: Receiver, past: seq<Packet>, s: seq<byte>)
    ensures var front := FrontOf(r.policy, s);
            && (front.More? ==> Until(r, past, s) == Progress(past, s, false))
            && (front.Bad? ==> Until(r, past, s) == Progress(past, s, true))
            && (front.Got? && !Accepted(r, past, front.packet) ==>
                  Until(r, past, s) == Progress(past + [front.packet], s, true))
  {
    hide FrontOf, Accepted;
  }

  // ---------- a stream in chunks ----------

  // `connection_read`: append what recv returned, parse, stop once closing.
  function Feed(r: Receiver, chunks: seq<seq<byte>>): Progress {
    if chunks == [] then Progress([], [], false)
    else
      var before := Feed(r, chunks[..|chunks| - 1]);
      if before.closing then before
      else Parse(r, before.handled, before.rest + chunks[|chunks| - 1])
  }

  // The packets up to and including the first DISCONNECT.
  function UpToClose(h: seq<Packet>): seq<Packet> {
    if h == [] then [] else if Disconnects(h[0]) then [h[0]] else [h[0]] + UpToClose(h[1..])
  }

  predicate Open(h: seq<Packet>) { forall i :: 0 <= i < |h| ==> !Disconnects(h[i]) }

  lemma {:induction false} UpToCloseOpen(a: seq<Packet>, b: seq<Packet>)
    requires Open(a)
    ensures UpToClose(a + b) == a + UpToClose(b)
  {
    if a == [] {
      assert a + b == b;
    } else {
      UpToCloseOpen(a[1..], b);
      assert (a + b)[1..] == a[1..] + b;
    }
  }

  // Later bytes leave the packets before the first closing event alone.
  lemma {:induction false} UntilExtends(r: Receiver, past: seq<Packet>, s: seq<byte>, t: seq<byte>)
    ensures var u := Until(r, past, s);
            Until(r, past, s + t) == if u.closing then u.(rest := u.rest + t) else Until(r, u.handled, u.rest + t)
    decreases |s|
  {
    hide FrontOf, Accepted, Until, Genuine, Wire, Disconnects;
    var front := FrontOf(r.policy, s);
    UntilStop(r, past, s);
    if !front.More? {
      FrontExtends(r.policy, s, t);
      UntilStop(r, past, s + t);
      if front.Got? && Accepted(r, past, front.packet) {
        var p := front.packet;
        FrontGot(r.policy, s);
        assert (s + t)[Size(p)..] == s[Size(p)..] + t;
        UntilOne(r, past, s, p);
        UntilOne(r, past, s + t, p);
        UntilExtends(r, past + [p], s[Size(p)..], t);
      }
    }
  }

  // One pass agrees with the cut-off pass up to the first closing event.
  lemma {:induction false} ParseUntil(r: Receiver, past: seq<Packet>, s: seq<byte>)
    requires Open(past)
    ensures var p, u := Parse(r, past, s), Until(r, past, s);
            && p.closing == u.closing && UpToClose(p.handled) == u.handled
            && (!u.closing ==> p == u && Open(u.handled))
    decreases |s|
  {
    hide FrontOf, Accepted, Parse, Until, UpToClose;
    var front := FrontOf(r.policy, s);
    ParseStop(r, past, s);
    UntilStop(r, past, s);
    if !front.Got? {
      CloseSplits(past);
    } else {
      var p := front.packet;
      var h := past + [p];
      FrontGot(r.policy, s);
      if !Accepted(r, past, p) {
        NotDisconnect(r, past, p);
        CloseSplits(h);
      } else {
        ParseOne(r, past, s, p);
        UntilOne(r, past, s, p);
        if Disconnects(p) {
          ParseGrows(r, h, s[Size(p)..]);
          CloseAt(past, p, Parse(r, h, s[Size(p)..]).handled);
        } else {
          ParseUntil(r, h, s[Size(p)..]);
        }
      }
    }
  }

  lemma NotDisconnect(r: Receiver, past: seq<Packet>, p: Packet)
    requires !Accepted(r, past, p)
    ensures !Disconnects(p)
  {
  }

  lemma CloseSplits(h: seq<Packet>)
    requires Open(h)
    ensures UpToClose(h) == h
  {
    UpToCloseOpen(h, []);
    assert h + [] == h;
  }

  // What is handled after an open history is cut at once if it begins with a DISCONNECT.
  lemma CloseAt(past: seq<Packet>, p: Packet, h: seq<Packet>)
    requires Open(past) && Disconnects(p) && past + [p] <= h
    ensures UpToClose(h) == past + [p]
  {
    var rest := h[|past|..];
    UpToCloseOpen(past, rest);
    assert past + rest == h && rest[0] == p;
  }

  lemma {:induction false} ParseGrows(r: Receiver, past: seq<Packet>, s: seq<byte>)
    ensures past <= Parse(r, past, s).handled
    decreases |s|
  {
    hide FrontOf, Accepted;
    var front := FrontOf(r.policy, s);
    if front.Got? {
      FrontGot(r.policy, s);
      ParseGrows(r, past + [front.packet], s[Size(front.packet)..]);
    }
  }
}
