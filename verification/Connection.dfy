/** A server connection of src/server.c: its read buffer, its write buffer, and the loops over recv and send. */
module Connection {
  import opened Words
  import opened Headers
  import opened Integrity
  import Payload
  import opened Framing
  import opened FramingTheorems
  import opened Serving
  import opened Outgoing
  import opened Buffers
  import opened Sockets

  const READ_CHUNK: nat := 4096

  lemma Within<T>(a: seq<T>, off: nat, end: nat, i: nat, j: nat)
    requires i <= j && off + j <= end <= |a|
    ensures a[off..end][i..j] == a[off + i..off + j]
  {
    var s := a[off..end];
    forall k | 0 <= k < j - i ensures s[i..j][k] == a[off + i..off + j][k] {
      assert s[i + k] == a[off + (i + k)];
    }
  }

  // A pass over s so far: at `off`, with this history and flag.
  ghost predicate Passing(r: Receiver, past: seq<Packet>, s: seq<byte>, off: nat, handled: seq<Packet>, closing: bool) {
    off <= |s| &&
    var all, rest := Parse(r, past, s), Parse(r, handled, s[off..]);
    all.handled == rest.handled && all.rest == rest.rest && all.closing == (closing || rest.closing)
  }

  lemma PassingStart(r: Receiver, past: seq<Packet>, s: seq<byte>)
    ensures Passing(r, past, s, 0, past, false)
  {
    hide Parse;
    assert s[0..] == s;
  }

  lemma PassingNext(r: Receiver, past: seq<Packet>, s: seq<byte>, off: nat, handled: seq<Packet>, closing: bool,
                    p: Packet)
    requires Passing(r, past, s, off, handled, closing) && FrontOf(r.policy, s[off..]) == Got(p)
    requires Accepted(r, handled, p)
    ensures off + Size(p) <= |s| && Passing(r, past, s, off + Size(p), handled + [p], closing || Disconnects(p))
  {
    hide FrontOf, Accepted, Parse;
    FrontGot(r.policy, s[off..]);
    ParseOne(r, handled, s[off..], p);
    assert s[off..][Size(p)..] == s[off + Size(p)..];
  }

  // The three ways a pass ends.
  lemma PassingEnd(r: Receiver, past: seq<Packet>, s: seq<byte>, off: nat, handled: seq<Packet>, closing: bool)
    requires Passing(r, past, s, off, handled, closing)
    ensures FrontOf(r.policy, s[off..]).More? ==> Parse(r, past, s) == Progress(handled, s[off..], closing)
    ensures FrontOf(r.policy, s[off..]).Bad? ==> Parse(r, past, s) == Progress(handled, s[off..], true)
    ensures var f := FrontOf(r.policy, s[off..]);
            f.Got? && !Accepted(r, handled, f.packet) ==>
              Parse(r, past, s) == Progress(handled + [f.packet], s[off..], true)
  {
    hide FrontOf, Accepted;
  }

  // What was sent and what is waiting make up the pieces put into the buffer, in order.
  ghost predicate Flow(policy: Policy, pieces: seq<Piece>, sent: seq<byte>, waiting: seq<byte>) {
    Outgoing.Sound(policy, pieces) && sent + waiting == Output(policy, pieces)
  }

  lemma FlowQueue(policy: Policy, pieces: seq<Piece>, sent: seq<byte>, waiting: seq<byte>, piece: Piece)
    requires Flow(policy, pieces, sent, waiting) && Genuine(policy, piece.packet)
    ensures Flow(policy, pieces + [piece], sent, waiting + PieceBytes(piece))
  {
    hide Verify, PieceBytes;
    PieceSnoc(policy, pieces, piece);
    hide Output, Outgoing.Sound;
    assert sent + (waiting + PieceBytes(piece)) == sent + waiting + PieceBytes(piece);
  }

  lemma FlowSend(policy: Policy, pieces: seq<Piece>, sent: seq<byte>, waiting: seq<byte>, m: nat)
    requires Flow(policy, pieces, sent, waiting) && m <= |waiting|
    ensures Flow(policy, pieces, sent + waiting[..m], waiting[m..])
  {
    hide Outgoing.Sound, Output;
    assert sent + waiting[..m] + waiting[m..] == sent + (waiting[..m] + waiting[m..]);
    assert waiting[..m] + waiting[m..] == waiting;
  }

  class Connection {
    const server: Host
    var readBuf: array<byte>
    var readLen: nat
    var writeBuf: array<byte>
    var writeOff: nat
    var writeLen: nat
    var closing: bool
    // What recv returned, call by call, and the space it was offered.
    ghost var chunks: seq<seq<byte>>
    ghost var offers: seq<nat>
    // What was handed to `handle_packet` (the handlers' memory), put into the write buffer, and taken by send.
    var handled: seq<Packet>
    ghost var pieces: seq<Piece>
    ghost var sent: seq<byte>

    // The read side is what feeding the chunks to a parser gives.
    ghost predicate ReadValid()
      reads this`readBuf, this`readLen, this`chunks, this`offers, this`handled, this`closing, readBuf
    {
      && readLen <= readBuf.Length && GoodCapacity(readBuf.Length)
      && (forall i :: 0 <= i < |offers| ==> READ_CHUNK <= offers[i])
      && var f := Feed(ReceiverOf(server), chunks);
         f.handled == handled && f.rest == readBuf[..readLen] && (f.closing ==> closing)
    }

    // The packets queued for sending.
    ghost function Queued(): seq<Packet>
      reads this`pieces
    {
      PacketsOf(pieces)
    }

    // The bytes waiting to be sent.
    ghost function Waiting(): seq<byte>
      reads this`writeBuf, this`writeOff, this`writeLen, writeBuf
      requires writeOff <= writeLen <= writeBuf.Length
    {
      writeBuf[writeOff..writeLen]
    }

    // The bytes sent and the bytes waiting are the pieces put into the buffer, in order.
    ghost predicate WriteValid()
      reads this`writeBuf, this`writeOff, this`writeLen, this`pieces, this`sent, writeBuf
    {
      && writeOff <= writeLen <= writeBuf.Length
      && Flow(server.policy, pieces, sent, Waiting())
    }

    ghost predicate Valid()
      reads this, readBuf, writeBuf
    {
      readBuf != writeBuf && ReadValid() && WriteValid()
    }

    constructor (server: Host)
      ensures Valid() && fresh(readBuf) && fresh(writeBuf) && this.server == server
      ensures !closing && chunks == [] && handled == [] && pieces == [] && sent == []
      ensures writeOff == 0 && writeLen == 0 && writeBuf.Length == 0
    {
      this.server := server;
      readBuf, readLen := new byte[0], 0;
      writeBuf, writeOff, writeLen := new byte[0], 0, 0;
      closing := false;
      chunks, offers, handled, pieces, sent := [], [], [], [], [];
    }

    // ---------- the write buffer ----------

    // `append_bytes`
    method AppendBytes(data: seq<byte>, memory: bool) returns (ok: bool)
      requires writeOff <= writeLen <= writeBuf.Length
      modifies this`writeBuf, this`writeLen, writeBuf
      ensures writeOff <= writeLen <= writeBuf.Length && (writeBuf == old(writeBuf) || fresh(writeBuf))
      ensures ok == Room(old(writeLen), old(writeBuf.Length), |data|, memory)
      ensures Waiting() == old(Waiting()) + if ok then data else []
      ensures writeLen == old(writeLen) + if ok then |data| else 0
      ensures writeBuf.Length == if ok && data != [] then Grown(old(writeBuf.Length), 4096, writeLen)
                                 else old(writeBuf.Length)
    {
      if |data| == 0 { return true; }
      ghost var was := writeBuf[..writeLen];
      assert Waiting() == was[writeOff..];
      ok, writeBuf := Fit(writeBuf, 4096, writeLen + |data|, memory);
      assert writeBuf[..writeLen] == was && Waiting() == was[writeOff..];
      if ok {
        hide Grown;
        Copy(data);
        assert Waiting() == (was + data)[writeOff..];
      }
    }

    // memcpy behind what is in the write buffer.
    method Copy(data: seq<byte>)
      requires writeLen + |data| <= writeBuf.Length
      modifies this`writeLen, writeBuf
      ensures writeLen == old(writeLen) + |data|
      ensures writeBuf[..writeLen] == old(writeBuf[..writeLen]) + data
    {
      Buffers.Copy(writeBuf, writeLen, data);
      writeLen := writeLen + |data|;
    }

    // The two appends of `queue_packet` for a signed packet.
    method AppendPacket(packet: Packet, memory: bool, more: bool) returns (ok: bool)
      requires WriteValid() && readBuf != writeBuf && Genuine(server.policy, packet)
      modifies this`writeBuf, this`writeLen, this`pieces, writeBuf
      ensures WriteValid() && readBuf != writeBuf && (writeBuf == old(writeBuf) || fresh(writeBuf))
      ensures var header := Room(old(writeLen), old(writeBuf.Length), HEADER_SIZE, memory);
              && ok == (header && PayloadRoom(old(writeLen), old(writeBuf.Length), |packet.payload|, more))
              && pieces == old(pieces) + (if header then [Piece(packet, ok)] else [])
              && Waiting() == old(Waiting()) + (if header then PieceBytes(Piece(packet, ok)) else [])
    {
      hide Flow, Layout, Verify, Grown, Room;
      ghost var waiting := Waiting();
      FlowQueue(server.policy, pieces, sent, waiting, Piece(packet, true));
      FlowQueue(server.policy, pieces, sent, waiting, Piece(packet, false));
      var header := HeaderBytes(packet.header);
      ok := AppendBytes(header, memory);
      if ok {
        ok := AppendBytes(packet.payload, more);
        if ok {
          assert Waiting() == waiting + PieceBytes(Piece(packet, true));
          pieces := pieces + [Piece(packet, true)];
        } else {
          assert Waiting() == waiting + PieceBytes(Piece(packet, false));
          pieces := pieces + [Piece(packet, false)];
        }
      } else {
        assert Waiting() == waiting;
      }
    }

    // `queue_packet` on a connection that is not detached: `memory` and `more` say whether the reallocations of
    // its two appends would succeed. When only the second append fails the header stays in the buffer.
    method QueuePacket(request: Request, memory: bool, more: bool) returns (ok: bool)
      requires WriteValid() && readBuf != writeBuf && request.Request? && ValidOp(request.op)
      modifies this`writeBuf, this`writeLen, this`pieces, writeBuf
      ensures WriteValid() && readBuf != writeBuf && (writeBuf == old(writeBuf) || fresh(writeBuf))
      ensures writeOff <= writeLen <= writeBuf.Length
      ensures var header := |request.payload| <= MAX_PAYLOAD
              && Room(old(writeLen), old(writeBuf.Length), HEADER_SIZE, memory);
              && ok == (header && PayloadRoom(old(writeLen), old(writeBuf.Length), |request.payload|, more))
              && pieces == old(pieces) + (if header then [Piece(Signed(server.policy, request), ok)] else [])
      ensures |request.payload| <= MAX_PAYLOAD && Room(old(writeLen), old(writeBuf.Length), HEADER_SIZE, memory) ==>
                Encodable(Signed(server.policy, request).header) &&
                Waiting() == old(Waiting()) + PieceBytes(Piece(Signed(server.policy, request), ok))
    {
      hide Flow, Sign, Verify, Grown, PieceBytes;
      ok := false;
      if |request.payload| <= MAX_PAYLOAD {
        SignSucceeds(server.policy, request);
        SignedGenuine(server.policy, request);
        var header := Sign(Plain(request), request.payload, server.policy).value;
        ok := AppendPacket(Packet(header, request.payload), memory, more);
      }
    }

    // What a `queue_packet` does to the queue, whatever room the buffer has and whichever reallocation fails, is
    // what `Answer` does for one of the three outcomes.
    method Queue(request: Request, memory: bool, more: bool) returns (ok: bool)
      requires WriteValid() && readBuf != writeBuf && request.Request? && ValidOp(request.op)
      modifies this`writeBuf, this`writeLen, this`pieces, writeBuf
      ensures WriteValid() && readBuf != writeBuf && (writeBuf == old(writeBuf) || fresh(writeBuf))
      ensures var outcome := Outcome(old(writeLen), old(writeBuf.Length), |request.payload|, memory, more);
              && ok == Serving.Queued(request, outcome)
              && Queued() == old(Queued()) + (if ok then [Signed(server.policy, request)] else [])
              && Strays(pieces) == old(Strays(pieces)) + (if Starves(request, outcome) then 1 else 0)
    {
      hide Connection.WriteValid, Signed, PieceBytes, Strays, PacketsOf, Grown;
      if |request.payload| <= MAX_PAYLOAD {
        ghost var packet := Signed(server.policy, request);
        CountPiece(pieces, Piece(packet, true));
        CountPiece(pieces, Piece(packet, false));
      }
      ok := QueuePacket(request, memory, more);
      assert old(pieces) + [] == old(pieces);
    }

    // A reply to the packet being handled, when the environment says which of its appends fails.
    method Answer(request: Request, memory: Memory) returns (ok: bool)
      requires WriteValid() && readBuf != writeBuf && request.Request? && ValidOp(request.op)
      modifies this`writeBuf, this`writeLen, this`pieces, writeBuf
      ensures WriteValid() && readBuf != writeBuf && (writeBuf == old(writeBuf) || fresh(writeBuf))
      ensures ok == Serving.Queued(request, memory)
      ensures Queued() == old(Queued()) + if ok then [Signed(server.policy, request)] else []
      ensures Strays(pieces) == old(Strays(pieces)) + if Starves(request, memory) then 1 else 0
    {
      hide Connection.WriteValid, Sign, Signed, PieceBytes, Strays, PacketsOf;
      ok := false;
      if |request.payload| <= MAX_PAYLOAD && !memory.NoHeader? {
        SignedGenuine(server.policy, request);
        ghost var packet := Signed(server.policy, request);
        CountPiece(pieces, Piece(packet, true));
        CountPiece(pieces, Piece(packet, false));
        if memory.Enough? || |request.payload| == 0 {
          ok := QueuePacket(request, true, true);
        } else {
          PutHeader(request);
        }
      }
    }

    // The header is appended and the payload is not.
    method PutHeader(request: Request)
      requires WriteValid() && readBuf != writeBuf && request.Request? && ValidOp(request.op)
      requires |request.payload| <= MAX_PAYLOAD
      modifies this`writeBuf, this`writeLen, this`pieces, writeBuf
      ensures WriteValid() && readBuf != writeBuf && (writeBuf == old(writeBuf) || fresh(writeBuf))
      ensures pieces == old(pieces) + [Piece(Signed(server.policy, request), false)]
      ensures Encodable(Signed(server.policy, request).header)
      ensures Waiting() == old(Waiting()) + Layout(Signed(server.policy, request).header)
    {
      hide Flow, Sign, Verify, Layout;
      SignSucceeds(server.policy, request);
      SignedGenuine(server.policy, request);
      var packet := Packet(Sign(Plain(request), request.payload, server.policy).value, request.payload);
      FlowQueue(server.policy, pieces, sent, Waiting(), Piece(packet, false));
      var header := HeaderBytes(packet.header);
      var ok := AppendBytes(header, true);
      pieces := pieces + [Piece(packet, false)];
    }

    // `connection_write`, driven by a script that ends with would-block; `done` when nothing is waiting.
    method Write(script: seq<Send>) returns (done: bool)
      requires Valid()
      modifies this`writeOff, this`writeLen, this`sent, this`closing
      ensures Valid() && sent == old(sent) + old(Waiting())[..Accepts(old(writeLen - writeOff), script)]
      ensures done == (Accepts(old(writeLen - writeOff), script) == old(writeLen - writeOff))
      ensures closing == (old(closing) || Breaks(old(writeLen - writeOff), script))
      ensures done ==> writeLen == 0 && writeOff == 0
      ensures sent <= Output(server.policy, pieces) && (done ==> sent == Output(server.policy, pieces))
    {
      hide Connection.ReadValid, Outgoing.Sound, Output, Accepts, Breaks;
      var broken;
      done, broken := WriteLoop(script);
      if broken { Close(); }
      if done { Drained(); }
    }

    method WriteLoop(script: seq<Send>) returns (done: bool, broken: bool)
      requires WriteValid()
      modifies this`writeOff, this`sent
      ensures WriteValid() && sent == old(sent) + old(Waiting())[..Accepts(old(writeLen - writeOff), script)]
      ensures done == (Accepts(old(writeLen - writeOff), script) == old(writeLen - writeOff))
      ensures broken == Breaks(old(writeLen - writeOff), script)
      ensures done ==> writeOff == writeLen
    {
      hide Connection.WriteValid, Connection.Waiting, Accepts, Breaks, Least;
      WriteBounds();
      var i, go := 0, true;
      ghost var waiting, k := Waiting(), 0;
      assert script[0..] == script;
      broken := false;
      while go && i < |script| && writeOff < writeLen
        invariant WriteValid() && i <= |script| && writeOff <= writeLen <= writeBuf.Length
        invariant 0 <= k <= |waiting| && writeLen - writeOff == |waiting| - k
        invariant sent + Waiting() == old(sent) + waiting && |sent| == |old(sent)| + k
        invariant go ==> Accepts(|waiting|, script) == k + Accepts(|waiting| - k, script[i..])
        invariant go ==> Breaks(|waiting|, script) == Breaks(|waiting| - k, script[i..]) && !broken
        invariant !go ==> Accepts(|waiting|, script) == k < |waiting| && Breaks(|waiting|, script) == broken
      {
        OneAnswer(writeLen - writeOff, script, i);
        var m;
        go, broken, m := SendOnce(script[i]);
        k := k + m;
        i := i + 1;
      }
      if go { NoAnswer(writeLen - writeOff, script, i); }
      done := writeOff == writeLen;
      Progressed(old(sent), waiting, sent, Waiting(), k);
    }

    // One answer of send: m bytes are taken, the loop goes on or not, the socket is broken or not.
    method SendOnce(answer: Send) returns (go: bool, broken: bool, m: nat)
      requires WriteValid() && writeOff < writeLen
      modifies this`writeOff, this`sent
      ensures m == if answer.Sent? then Least(answer.n, old(writeLen - writeOff)) else 0
      ensures go == (m > 0 || answer.Again?) && broken == (!go && !answer.Busy?)
      ensures WriteValid() && writeOff == old(writeOff) + m <= writeLen <= writeBuf.Length
      ensures sent + Waiting() == old(sent + Waiting()) && |sent| == old(|sent|) + m
    {
      WriteBounds();
      hide Connection.WriteValid;
      m := 0;
      match answer {
        case Sent(n) =>
          m := Least(n, writeLen - writeOff);
          if m == 0 { return false, true, m; }
          SendSome(m);
          return true, false, m;
        case Busy => return false, false, m;
        case Again => return true, false, m;
        case Lost => return false, true, m;
      }
    }

    // send took the first m of the waiting bytes.
    method SendSome(m: nat)
      requires WriteValid() && m <= writeLen - writeOff
      modifies this`writeOff, this`sent
      ensures WriteValid() && writeOff == old(writeOff) + m <= writeLen <= writeBuf.Length
      ensures sent + Waiting() == old(sent + Waiting()) && |sent| == old(|sent|) + m
    {
      hide Flow;
      ghost var waiting := Waiting();
      FlowSend(server.policy, pieces, sent, waiting, m);
      assert waiting[m..] == writeBuf[writeOff + m..writeLen];
      assert waiting[..m] == writeBuf[writeOff..writeOff + m];
      sent := sent + waiting[..m];
      writeOff := writeOff + m;
    }

    lemma WriteBounds()
      requires WriteValid()
      ensures writeOff <= writeLen <= writeBuf.Length && |Waiting()| == writeLen - writeOff
    {
    }

    // Nothing is waiting: start the buffer over.
    method Drained()
      requires WriteValid() && writeOff == writeLen
      modifies this`writeOff, this`writeLen
      ensures WriteValid() && writeOff == 0 && writeLen == 0
    {
      hide Flow;
      assert writeBuf[writeOff..writeLen] == [] && writeBuf[0..0] == [];
      writeLen := 0;
      writeOff := 0;
    }

    // ---------- the read buffer ----------

    // `handle_packet`
    method HandlePacket(p: Packet) returns (ok: bool)
      requires WriteValid() && readBuf != writeBuf
      modifies this`writeBuf, this`writeLen, this`pieces, this`closing, this`handled, writeBuf
      ensures WriteValid() && readBuf != writeBuf && (writeBuf == old(writeBuf) || fresh(writeBuf))
      ensures handled == old(handled) + [p] && Queued() == old(Queued()) + ReplyTo(server, handled)
      ensures ok == Accepted(ReceiverOf(server), old(handled), p)
      ensures closing == (old(closing) || Disconnects(p))
    {
      hide Connection.WriteValid, Signed, PacketsOf, Payload.Encode;
      handled := handled + [p];
      if p.header.op == OP_DISCONNECT {
        closing := true;
        return true;
      }
      var request := Wanted(server, handled);
      ok := true;
      if request.Request? {
        WantedOp(server, handled);
        hide Wanted;
        ok := Answer(request, server.memory(handled));
      }
    }

    // The checks of one turn of `parse_available`, up to `handle_packet`.
    method Fetch(off: nat) returns (front: Front)
      requires readLen <= readBuf.Length && off + HEADER_SIZE <= readLen
      ensures front == FrontOf(server.policy, readBuf[off..readLen])
    {
      hide Headers.Decode, Verify;
      ghost var s := readBuf[off..readLen];
      assert s == readBuf[..][off..readLen];
      Within(readBuf[..], off, readLen, 0, HEADER_SIZE);
      var header := Headers.Decode(readBuf[off..off + HEADER_SIZE]);
      if header.None? { return Bad; }
      var h := header.value;
      if readLen - off - HEADER_SIZE < h.size { return More; }
      var payload := readBuf[off + HEADER_SIZE..off + HEADER_SIZE + h.size];
      Within(readBuf[..], off, readLen, HEADER_SIZE, HEADER_SIZE + h.size);
      if !Verify(h, payload, server.policy) { return Bad; }
      return Got(Packet(h, payload));
    }

    // The loop of `parse_available`: returns the number of bytes consumed.
    method ParseLoop() returns (off: nat)
      requires WriteValid() && readBuf != writeBuf && readLen <= readBuf.Length && !closing
      modifies this`writeBuf, this`writeLen, this`pieces, this`closing, this`handled, writeBuf
      ensures WriteValid() && readBuf != writeBuf && (writeBuf == old(writeBuf) || fresh(writeBuf))
      ensures off <= readLen && readBuf[..readLen] == old(readBuf[..readLen])
      ensures Parse(ReceiverOf(server), old(handled), readBuf[..readLen])
           == Progress(handled, readBuf[..readLen][off..], closing)
      ensures old(Queued()) == Replies(server, old(handled)) ==> Queued() == Replies(server, handled)
    {
      hide FrontOf, Accepted, Parse, Passing, Connection.WriteValid, ReplyTo, Replies, PacketsOf;
      ghost var r, s := ReceiverOf(server), readBuf[..readLen];
      off := 0;
      PassingStart(r, handled, s);
      while readLen - off >= HEADER_SIZE
        invariant off <= readLen <= readBuf.Length && readBuf[..readLen] == s
        invariant WriteValid() && readBuf != writeBuf && (writeBuf == old(writeBuf) || fresh(writeBuf))
        invariant Passing(r, old(handled), s, off, handled, closing)
        invariant old(Queued()) == Replies(server, old(handled)) ==> Queued() == Replies(server, handled)
      {
        PassingEnd(r, old(handled), s, off, handled, closing);
        assert s[off..] == readBuf[off..readLen];
        var front := Fetch(off);
        if front.Bad? {
          closing := true;
          break;
        }
        if front.More? { break; }
        var p := front.packet;
        if Accepted(r, handled, p) { PassingNext(r, old(handled), s, off, handled, closing, p); }
        RepliesStep(server, handled, p);
        var ok := HandlePacket(p);
        if !ok {
          closing := true;
          break;
        }
        off := off + HEADER_SIZE + p.header.size;
      }
      if readLen - off < HEADER_SIZE {
        TooShort(server.policy, s[off..]);
        PassingEnd(r, old(handled), s, off, handled, closing);
      }
    }

    // `parse_available`
    method ParseAvailable()
      requires WriteValid() && readBuf != writeBuf && readLen <= readBuf.Length && !closing
      modifies this`readLen, this`writeBuf, this`writeLen, this`pieces, this`closing, this`handled
      modifies readBuf, writeBuf
      ensures WriteValid() && readBuf != writeBuf && (writeBuf == old(writeBuf) || fresh(writeBuf))
      ensures readLen <= readBuf.Length
      ensures Parse(ReceiverOf(server), old(handled), old(readBuf[..readLen]))
           == Progress(handled, readBuf[..readLen], closing)
      ensures old(Queued()) == Replies(server, old(handled)) ==> Queued() == Replies(server, handled)
    {
      hide Parse, Connection.WriteValid, Replies;
      var off := ParseLoop();
      if off > 0 {
        ghost var rest := readBuf[..readLen][off..];
        Move(readBuf, off, readLen);
        readLen := readLen - off;
        assert readBuf[..readLen] == rest;
      }
    }

    // `reserve_bytes` on the read buffer.
    method Reserve(need: nat, memory: bool) returns (ok: bool)
      requires readLen <= readBuf.Length && readBuf != writeBuf
      modifies this`readBuf
      ensures readLen <= readBuf.Length && readBuf != writeBuf && (readBuf == old(readBuf) || fresh(readBuf))
      ensures readBuf[..readLen] == old(readBuf[..readLen])
      ensures ok == (need <= old(readBuf.Length) || memory)
      ensures readBuf.Length == if ok then Grown(old(readBuf.Length), 4096, need) else old(readBuf.Length)
    {
      ghost var kept := readBuf[..readLen];
      ok, readBuf := Fit(readBuf, 4096, need, memory);
      assert readBuf[..readLen] == kept;
    }

    // `connection_read`, driven by a script that ends with would-block; returns how much of the
    // incoming stream was taken.
    method Read(incoming: seq<byte>, script: seq<Poll>) returns (taken: nat)
      requires Valid() && !closing
      modifies this, readBuf, writeBuf
      ensures Valid() && writeOff == old(writeOff) && sent == old(sent) && readBuf.Length <= TWO_MIB
      ensures taken <= |incoming| && Flatten(chunks) == old(Flatten(chunks)) + incoming[..taken]
      ensures old(Queued()) == Replies(server, old(handled)) ==> Queued() == Replies(server, handled)
      ensures Delivering(script) ==> closing == (taken > 0 && Feed(ReceiverOf(server), chunks).closing)
      ensures Delivering(script) && |incoming| <= Takes(script) && !closing ==> taken == |incoming|
    {
      hide Connection.Valid, Replies, Flatten, Feed, Delivering, Takes;
      taken := 0;
      var i, more := 0, true;
      assert incoming[..0] == [] && script[0..] == script;
      while i < |script| && more
        invariant Valid() && taken <= |incoming| && (more ==> !closing) && i <= |script|
        invariant Delivering(script) ==> closing == (taken > 0 && Feed(ReceiverOf(server), chunks).closing)
        invariant Delivering(script) && !more ==> closing || taken == |incoming|
        invariant Delivering(script) && more ==> Takes(script) - Takes(script[i..]) <= taken
        invariant writeOff == old(writeOff) && sent == old(sent)
        invariant readBuf == old(readBuf) || fresh(readBuf)
        invariant writeBuf == old(writeBuf) || fresh(writeBuf)
        invariant Flatten(chunks) == old(Flatten(chunks)) + incoming[..taken]
        invariant old(Queued()) == Replies(server, old(handled)) ==> Queued() == Replies(server, handled)
      {
        var n;
        TakesRest(script, i);
        DeliversAt(script, i);
        ghost var before := chunks;
        more, n := ReadOnce(incoming[taken..], script[i]);
        assert before + [] == before;
        assert incoming[..taken] + incoming[taken..][..n] == incoming[..taken + n];
        taken := taken + n;
        i := i + 1;
      }
      TakesNone(script, i);
      ReadBounded();
    }

    lemma ReadBounded()
      requires Valid()
      ensures readBuf.Length <= TWO_MIB
    {
      hide Connection.WriteValid, Feed;
    }

    // One turn of the loop in `connection_read`: `more` unless it returns.
    method ReadOnce(incoming: seq<byte>, poll: Poll) returns (more: bool, n: nat)
      requires Valid() && !closing
      modifies this, readBuf, writeBuf
      ensures Valid() && writeOff == old(writeOff) && sent == old(sent) && (more ==> !closing)
      ensures readBuf == old(readBuf) || fresh(readBuf)
      ensures writeBuf == old(writeBuf) || fresh(writeBuf)
      ensures n <= |incoming| && Flatten(chunks) == old(Flatten(chunks)) + incoming[..n]
      ensures chunks == old(chunks) + if n > 0 then [incoming[..n]] else []
      ensures old(Queued()) == Replies(server, old(handled)) ==> Queued() == Replies(server, handled)
      ensures var room := READ_CHUNK <= old(readBuf.Length) - old(readLen) || poll.memory;
              && n == (if room && poll.recv.Take?
                       then Least(poll.recv.n, Least(|incoming|, Offer(old(readLen), old(readBuf.Length)))) else 0)
              && closing == (!room || poll.recv.Eof? || poll.recv.Broken?
                             || (n > 0 && Feed(ReceiverOf(server), chunks).closing))
      ensures more == (!closing && (poll.recv.Interrupted? || n > 0))
    {
      hide Connection.WriteValid, Connection.ReadValid, Replies, Feed, Grown, Least;
      n := 0;
      assert incoming[..0] == [];
      var ok := MakeRoom(poll.memory);
      if !ok {
        Close();
        return false, n;
      }
      match poll.recv {
        case Take(want) =>
          n := Least(want, Least(|incoming|, readBuf.Length - readLen));
          if n > 0 {
            assert (chunks + [incoming[..n]])[..|chunks|] == chunks;
            Receive(incoming[..n]);
          }
          more := n > 0 && !closing;
        case Interrupted =>
          more := true;
        case WouldBlock =>
          more := false;
        case Eof =>
          Close();
          more := false;
        case Broken =>
          Close();
          more := false;
      }
    }

    method Close()
      requires Valid()
      modifies this`closing
      ensures Valid() && closing
    {
      hide Connection.WriteValid, Feed;
      closing := true;
    }

    // Room for at least one chunk behind what is buffered: at most 2 MiB in all.
    method MakeRoom(memory: bool) returns (ok: bool)
      requires Valid() && !closing
      modifies this`readBuf, this`offers
      ensures Valid() && (readBuf == old(readBuf) || fresh(readBuf))
      ensures ok ==> READ_CHUNK <= readBuf.Length - readLen && offers == old(offers) + [readBuf.Length - readLen]
      ensures ok == (READ_CHUNK <= old(readBuf.Length) - readLen || memory)
      ensures ok ==> readBuf.Length - readLen == Offer(readLen, old(readBuf.Length))
    {
      hide Feed, ReceiverOf, Connection.WriteValid, GoodCapacity;
      ok := true;
      if readBuf.Length - readLen < READ_CHUNK {
        FeedBound(ReceiverOf(server), chunks);
        GrownGood(readBuf.Length, 4096, readLen + READ_CHUNK);
        ok := Reserve(readLen + READ_CHUNK, memory);
      }
      if ok { offers := offers + [readBuf.Length - readLen]; }
    }

    // recv returned these bytes: append them, parse.
    method Receive(data: seq<byte>)
      requires Valid() && !closing && READ_CHUNK <= readBuf.Length - readLen && |data| <= readBuf.Length - readLen
      modifies this`readLen, this`writeBuf, this`writeLen, this`pieces, this`closing, this`handled
      modifies this`chunks, readBuf, writeBuf
      ensures Valid() && chunks == old(chunks) + [data] && (writeBuf == old(writeBuf) || fresh(writeBuf))
      ensures closing == Feed(ReceiverOf(server), chunks).closing
      ensures old(Queued()) == Replies(server, old(handled)) ==> Queued() == Replies(server, handled)
    {
      hide Connection.WriteValid, Replies, Parse, GoodCapacity, ReceiverOf;
      ghost var before := readBuf[..readLen];
      assert (chunks + [data])[..|chunks|] == chunks;
      forall i | 0 <= i < |data| { readBuf[readLen + i] := data[i]; }
      readLen := readLen + |data|;
      assert readBuf[..readLen] == before + data;
      chunks := chunks + [data];
      ParseAvailable();
    }
  }

  // After k more bytes.
  lemma Progressed(sent: seq<byte>, waiting: seq<byte>, sent': seq<byte>, waiting': seq<byte>, k: nat)
    requires sent' + waiting' == sent + waiting && |sent'| == |sent| + k && k <= |waiting|
    ensures sent' == sent + waiting[..k]
  {
    assert sent' == (sent' + waiting')[..|sent'|];
    assert (sent + waiting)[..|sent| + k] == sent + waiting[..k];
  }

  // The space a recv is offered behind `len` bytes: at least a chunk.
  function Offer(len: nat, cap: nat): (n: nat)
    ensures READ_CHUNK <= n
  {
    if len <= cap && READ_CHUNK <= cap - len then cap - len else Grown(cap, 4096, len + READ_CHUNK) - len
  }

  // An open connection never buffers a whole largest packet.
  lemma FeedBound(r: Receiver, chunks: seq<seq<byte>>)
    requires !Feed(r, chunks).closing
    ensures |Feed(r, chunks).rest| < HEADER_SIZE + MAX_PAYLOAD
  {
    hide Feed;
    FeedConserves(r, chunks);
    FrontBound(r.policy, Feed(r, chunks).rest);
  }

  lemma TooShort(policy: Policy, s: seq<byte>)
    ensures |s| < HEADER_SIZE ==> FrontOf(policy, s) == More
  {
  }

  method HeaderBytes(h: Header) returns (bytes: seq<byte>)
    requires Encodable(h)
    ensures bytes == Layout(h)
  {
    hide Layout;
    var buf := new byte[HEADER_SIZE];
    var ok := EncodeHeader(h, buf);
    bytes := buf[..];
  }

  // The header is appended and the payload is not.
  predicate Starves(request: Request, memory: Memory) {
    request.Request? && |request.payload| <= MAX_PAYLOAD && memory.NoPayload? && request.payload != []
  }

  // Whether the payload can be appended behind the header.
  predicate PayloadRoom(len: nat, cap: nat, n: nat, memory: bool) {
    Room(len + HEADER_SIZE, Grown(cap, 4096, len + HEADER_SIZE), n, memory)
  }

  // Which append fails, by the room in the buffer and the fate of the two reallocations.
  function Outcome(len: nat, cap: nat, n: nat, memory: bool, more: bool): Memory {
    if !Room(len, cap, HEADER_SIZE, memory) then NoHeader
    else if !PayloadRoom(len, cap, n, more) then NoPayload
    else Enough
  }

  lemma CountPiece(pieces: seq<Piece>, piece: Piece)
    ensures PacketsOf(pieces + [piece]) == PacketsOf(pieces) + if piece.whole then [piece.packet] else []
    ensures Strays(pieces + [piece]) == Strays(pieces) + if piece.whole then 0 else 1
  {
    assert (pieces + [piece])[..|pieces|] == pieces;
  }

  // A packet of more than 4096 bytes on a fresh connection, when the second reallocation fails: `queue_packet`
  // reports failure and the header stays in the buffer.
  method LosePayload(server: Host, request: Request) returns (ok: bool, c: Connection)
    requires request.Request? && ValidOp(request.op) && 4096 < HEADER_SIZE + |request.payload|
    requires |request.payload| <= MAX_PAYLOAD
    ensures fresh(c) && fresh(c.readBuf) && fresh(c.writeBuf) && c.server == server && !ok
    ensures c.WriteValid() && c.readBuf != c.writeBuf && c.writeOff <= c.writeLen <= c.writeBuf.Length
    ensures Encodable(Signed(server.policy, request).header)
    ensures c.Waiting() == Layout(Signed(server.policy, request).header)
    ensures c.Queued() == [] && Strays(c.pieces) == 1
  {
    hide Connection.ReadValid, Connection.WriteValid, Sign, Layout, Verify;
    ghost var lost := Signed(server.policy, request);
    SignedGenuine(server.policy, request);
    FirstPiece(lost);
    hide Signed, Genuine, Grown, PieceBytes, PacketsOf, Strays, Encodable;
    c := new Connection(server);
    assert c.Waiting() == [];
    ok := c.QueuePacket(request, true, false);
  }

  lemma FirstPiece(lost: Packet)
    requires Encodable(lost.header)
    ensures Grown(0, 4096, HEADER_SIZE) == 4096 && PieceBytes(Piece(lost, false)) == Layout(lost.header)
    ensures [] + [Piece(lost, false)] == [Piece(lost, false)] && [] + Layout(lost.header) == Layout(lost.header)
    ensures PacketsOf([Piece(lost, false)]) == [] && Strays([Piece(lost, false)]) == 1
  {
    hide Layout;
    CountPiece([], Piece(lost, false));
    assert [] + [Piece(lost, false)] == [Piece(lost, false)];
  }

  // The connection goes on: the next packet is queued behind the stray header.
  method StrayHeader(server: Host, request: Request, next: Request) returns (ok: bool, later: bool, waiting: seq<byte>)
    requires request.Request? && ValidOp(request.op) && 4096 < HEADER_SIZE + |request.payload|
    requires |request.payload| <= MAX_PAYLOAD
    requires next.Request? && ValidOp(next.op) && |next.payload| <= MAX_PAYLOAD
    ensures !ok && later && Genuine(server.policy, Signed(server.policy, request))
    ensures Genuine(server.policy, Signed(server.policy, next))
    ensures waiting == Layout(Signed(server.policy, request).header) + Wire(Signed(server.policy, next))
  {
    SignedGenuine(server.policy, request);
    SignedGenuine(server.policy, next);
    hide Connection.ReadValid, Connection.WriteValid, Signed, Layout, Grown, Verify;
    var c;
    ok, c := LosePayload(server, request);
    later := c.QueuePacket(next, true, true);
    waiting := c.writeBuf[c.writeOff..c.writeLen];
  }

  const LOST: Request := Request(OP_RESPONSE, 7, 9, seq(4063, _ => 0))
  const NEXT: Request := Request(OP_RESPONSE, 0, 10, [])

  // For instance: a response of 4063 zeros, then the response to a ping.
  method StrayExample(server: Host) returns (ok: bool, later: bool, waiting: seq<byte>)
    ensures !ok && later && |waiting| == 68
    ensures Genuine(server.policy, Signed(server.policy, LOST)) && Genuine(server.policy, Signed(server.policy, NEXT))
    ensures waiting == Layout(Signed(server.policy, LOST).header) + Wire(Signed(server.policy, NEXT))
  {
    SignedGenuine(server.policy, NEXT);
    hide Signed, Layout, Verify;
    ok, later, waiting := StrayHeader(server, LOST, NEXT);
  }
}
