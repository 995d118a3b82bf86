/** The client side of src/client.c: gather-sends of whole packets and a buffered packet reader. */
module Client {
  import opened Options
  import opened Sequences
  import opened Words
  import opened Headers
  import opened Integrity
  import opened Framing
  import opened FramingTheorems
  import opened Serving
  import opened Outgoing
  import opened Buffers
  import opened Sockets
  import opened Connection

  // ---------- sending ----------

  // `send_iov_full`: one or two pieces, whatever sendmsg takes at a time. A send of nothing at all fails.
  method SendIov(iov: seq<seq<byte>>, script: seq<Send>) returns (ok: bool, sent: seq<byte>)
    ensures sent <= Flatten(iov)
    ensures 1 <= |iov| <= 2 ==> sent == Flatten(iov)[..Accepts(|Flatten(iov)|, script)]
    ensures ok == (1 <= |iov| <= 2 && |Flatten(iov)| > 0 && Accepts(|Flatten(iov)|, script) == |Flatten(iov)|)
  {
    hide Flatten, Accepts, Breaks, Left;
    sent := [];
    if |iov| == 0 || |iov| > 2 { return false, sent; }
    LeftAll(iov);
    var count, i, go := |iov|, 0, true;
    var local0 := iov[0];
    var local1 := if |iov| == 2 then iov[1] else [];
    ghost var all := Flatten(iov);
    assert script[0..] == script;
    while go && i < |script| && count > 0
      invariant 0 <= count <= 2 && i <= |script|
      invariant sent + Left(count, local0, local1) == all && |Left(count, local0, local1)| == |all| - |sent|
      invariant count == 0 ==> |sent| == |all| > 0
      invariant count > 0 && |all| > 0 ==> |sent| < |all|
      invariant go ==> Accepts(|all|, script) == |sent| + Accepts(|all| - |sent|, script[i..])
      invariant !go ==> Accepts(|all|, script) == |sent| && (|sent| < |all| || |all| == 0)
    {
      var left := Left(count, local0, local1);
      if |left| > 0 { OneAnswer(|left|, script, i); } else { NoAnswer(0, script, i); }
      var m := if script[i].Sent? then Least(script[i].n, |left|) else 0;
      go := m > 0 || script[i].Again?;
      if m > 0 {
        SentMore(sent, left, m);
        sent := sent + left[..m];
        count, local0 := Advance(m, count, local0, local1);
      }
      i := i + 1;
      if |left| == 0 { NoAnswer(0, script, i); }
    }
    if go { NoAnswer(|all| - |sent|, script, i); }
    ok := count == 0;
    assert sent == all[..|sent|];
  }

  lemma LeftAll(iov: seq<seq<byte>>)
    requires 1 <= |iov| <= 2
    ensures Left(|iov|, iov[0], if |iov| == 2 then iov[1] else []) == Flatten(iov)
  {
    Whole(iov);
  }

  lemma SentMore(sent: seq<byte>, left: seq<byte>, m: nat)
    requires m <= |left|
    ensures sent + left[..m] + left[m..] == sent + left
  {
    assert left[..m] + left[m..] == left;
  }

  // The bytes still to be sent.
  function Left(count: nat, local0: seq<byte>, local1: seq<byte>): seq<byte> {
    if count == 0 then [] else if count == 1 then local0 else local0 + local1
  }

  // Step over the pieces that were sent in full, then into the one that was not.
  method Advance(m: nat, count: nat, local0: seq<byte>, local1: seq<byte>) returns (c: nat, head: seq<byte>)
    requires 0 < count <= 2 && m <= |Left(count, local0, local1)|
    ensures c <= count && Left(c, head, local1) == Left(count, local0, local1)[m..]
    ensures if c == 0 then m == |Left(count, local0, local1)| else |Left(c, head, local1)| > 0
  {
    var rest := m;
    c, head := count, local0;
    while c > 0 && rest >= |head|
      invariant 0 <= c <= count && 0 <= rest <= |Left(c, head, local1)|
      invariant Left(c, head, local1)[rest..] == Left(count, local0, local1)[m..]
      decreases c
    {
      rest := rest - |head|;
      head := local1;
      c := c - 1;
    }
    if c > 0 && rest > 0 { head := head[rest..]; }
  }

  // `send_packet`: sign, encode, send. On success the wire form went out, whole.
  method SendPacket(policy: Policy, request: Request, script: seq<Send>) returns (ok: bool, sent: seq<byte>)
    requires policy.key.Some? && request.Request?
    ensures ok == (|request.payload| <= MAX_PAYLOAD && ValidOp(request.op) &&
                   Accepts(HEADER_SIZE + |request.payload|, script) == HEADER_SIZE + |request.payload|)
    ensures |request.payload| <= MAX_PAYLOAD && ValidOp(request.op) ==>
              && Genuine(policy, Signed(policy, request))
              && |Wire(Signed(policy, request))| == HEADER_SIZE + |request.payload|
    ensures |request.payload| <= MAX_PAYLOAD && ValidOp(request.op) ==>
              sent == Wire(Signed(policy, request))[..Accepts(HEADER_SIZE + |request.payload|, script)]
    ensures ok ==> sent == Wire(Signed(policy, request))
  {
    sent, ok := [], false;
    if |request.payload| <= MAX_PAYLOAD && ValidOp(request.op) {
      SignSucceeds(policy, request);
      SignedGenuine(policy, request);
      hide Sign, Verify, Layout, Flatten, Accepts;
      var header := HeaderBytes(Sign(Plain(request), request.payload, policy).value);
      var iov := if |request.payload| > 0 then [header, request.payload] else [header];
      Whole(iov);
      ok, sent := SendIov(iov, script);
      assert |request.payload| == 0 ==> header + request.payload == header;
    }
  }

  // ---------- receiving ----------

  // What the reader has taken from the stream: whole packets, then the bytes not yet looked at.
  ghost predicate Account(policy: Policy, received: seq<byte>, delivered: seq<Packet>, waiting: seq<byte>) {
    AllGenuine(policy, delivered) && received == Wires(policy, delivered) + waiting
  }

  lemma TakenMore(received: seq<byte>, incoming: seq<byte>, taken: nat, n: nat)
    requires taken + n <= |incoming|
    ensures received + incoming[..taken] + incoming[taken..taken + n] == received + incoming[..taken + n]
  {
    assert incoming[..taken] + incoming[taken..taken + n] == incoming[..taken + n];
    Assoc(received, incoming[..taken], incoming[taken..taken + n]);
  }

  // What one turn of the loop in `client_read_fill` takes of `left` bytes, with `have` in a buffer of `cap` ...
  function Fetched(have: nat, cap: nat, need: nat, left: nat, poll: Poll): (n: nat)
    requires have <= cap
    ensures n <= left && have + n <= Grown(cap, 65536, need)
  {
    if poll.recv.Take? && (need <= cap || poll.memory)
    then Least(poll.recv.n, Least(left, Grown(cap, 65536, need) - have)) else 0
  }

  // ... and whether the loop goes on after a turn that took n.
  predicate GoesOn(n: nat, cap: nat, need: nat, poll: Poll) {
    n > 0 || (poll.recv.Interrupted? && (need <= cap || poll.memory))
  }

  // What the loop takes.
  function Fetches(have: nat, cap: nat, need: nat, left: nat, script: seq<Poll>): (n: nat)
    requires have <= cap
    ensures n <= left
    decreases |script|
  {
    if need <= have || script == [] then 0
    else
      var n := Fetched(have, cap, need, left, script[0]);
      if GoesOn(n, cap, need, script[0])
      then n + Fetches(have + n, Grown(cap, 65536, need), need, left - n, script[1..])
      else 0
  }

  // The loop, one turn further on; a kernel that keeps delivering ends it only at the end of the stream.
  lemma FetchOne(have: nat, cap: nat, need: nat, left: nat, script: seq<Poll>, i: nat)
    requires have <= cap && have < need && i < |script|
    ensures var n := Fetched(have, cap, need, left, script[i]);
            && n <= left && have + n <= Grown(cap, 65536, need)
            && Fetches(have, cap, need, left, script[i..]) ==
                 (if GoesOn(n, cap, need, script[i])
                  then n + Fetches(have + n, Grown(cap, 65536, need), need, left - n, script[i + 1..]) else 0)
            && (!GoesOn(n, cap, need, script[i]) ==> n == 0)
            && (Delivering(script) ==> left == 0 || (if script[i].recv.Take? then n > 0
                                                    else GoesOn(n, cap, need, script[i])))
  {
    DeliversAt(script, i);
    hide Delivering, Grown;
    assert script[i..][1..] == script[i + 1..] && script[i..][0] == script[i];
  }

  lemma FetchNone(have: nat, cap: nat, need: nat, left: nat, script: seq<Poll>, i: nat)
    requires have <= cap && i <= |script| && (need <= have || i == |script|)
    ensures Fetches(have, cap, need, left, script[i..]) == 0
  {
  }

  class Reader {
    const policy: Policy
    var readBuf: array<byte>
    var readOff: nat
    var readLen: nat
    ghost var received: seq<byte>
    ghost var delivered: seq<Packet>
    ghost var offers: seq<nat>

    // At most 2 MiB are allocated, as long as nothing asks for more.
    ghost predicate Valid()
      reads this, readBuf
    {
      Keeps() && GoodCapacity(readBuf.Length)
    }

    ghost predicate Keeps()
      reads this, readBuf
    {
      && readOff <= readLen <= readBuf.Length
      && (forall i :: 0 <= i < |offers| ==> 0 < offers[i])
      && Account(policy, received, delivered, readBuf[readOff..readLen])
    }

    constructor (policy: Policy)
      ensures Valid() && this.policy == policy && received == [] && delivered == [] && fresh(readBuf)
    {
      this.policy := policy;
      readBuf, readOff, readLen := new byte[0], 0, 0;
      received, delivered, offers := [], [], [];
    }

    // What is waiting goes to the front of the buffer.
    method Compact()
      requires Keeps()
      modifies this`readOff, this`readLen, readBuf
      ensures Keeps() && readOff == 0 && readLen == old(readLen - readOff)
    {
      hide Account;
      if readOff > 0 {
        Move(readBuf, readOff, readLen);
        readLen := readLen - readOff;
        readOff := 0;
      }
      assert readBuf[..readLen] == readBuf[readOff..readLen];
    }

    // `client_read_reserve`
    method Reserve(need: nat, memory: bool) returns (ok: bool)
      requires Keeps()
      modifies this`readBuf, this`readOff, this`readLen, readBuf
      ensures Keeps() && (readBuf == old(readBuf) || fresh(readBuf))
      ensures readLen - readOff == old(readLen - readOff)
      ensures ok == (need <= old(readLen - readOff) || need <= old(readBuf.Length) || memory)
      ensures ok && readLen - readOff < need ==>
                readOff == 0 && readBuf.Length == Grown(old(readBuf.Length), 65536, need)
      ensures !ok || need <= old(readLen - readOff) ==> readBuf.Length == old(readBuf.Length)
    {
      hide Account, Grown;
      if readLen - readOff >= need { return true; }
      Compact();
      ghost var waiting := readBuf[readOff..readLen];
      ok, readBuf := Fit(readBuf, 65536, need, memory);
      assert readBuf[readOff..readLen] == waiting;
    }

    // recv returned these bytes.
    method Receive(data: seq<byte>)
      requires Keeps() && 0 < readBuf.Length - readLen && |data| <= readBuf.Length - readLen
      modifies this`readLen, this`received, readBuf
      ensures Keeps() && readLen == old(readLen) + |data| && received == old(received) + data
    {
      ghost var waiting := readBuf[readOff..readLen];
      MoreReceived(policy, received, delivered, waiting, data);
      hide Account;
      forall i | 0 <= i < |data| { readBuf[readLen + i] := data[i]; }
      readLen := readLen + |data|;
      received := received + data;
      assert readBuf[readOff..readLen] == waiting + data;
    }

    // `client_read_fill`: at least `need` bytes in the buffer. The branch that would grow a full buffer is dead.
    // A loop that gives up over a kernel that keeps delivering has taken all there is, or seen every answer.
    method Fill(need: nat, incoming: seq<byte>, script: seq<Poll>) returns (ok: bool, taken: nat, used: nat)
      requires Keeps()
      modifies this`readBuf, this`readOff, this`readLen, this`received, this`offers, readBuf
      ensures Keeps() && (readBuf == old(readBuf) || fresh(readBuf))
      ensures need <= TWO_MIB && old(Valid()) ==> Valid()
      ensures taken <= |incoming| && used <= |script| && received == old(received) + incoming[..taken]
      ensures taken == Fetches(old(readLen - readOff), old(readBuf.Length), need, |incoming|, script)
      ensures ok == (need <= readLen - readOff)
      ensures Delivering(script) ==> taken == |incoming| || Takes(script) <= taken + Takes(script[used..])
      ensures Delivering(script) && !ok ==> taken == |incoming| || used == |script|
      ensures readBuf[readOff..readLen] == old(readBuf[readOff..readLen]) + incoming[..taken]
    {
      hide Delivering, Takes, Fetches;
      ok, taken, used := FillLoop(need, incoming, script);
      Cancel(policy, old(received), delivered, old(readBuf[readOff..readLen]), readBuf[readOff..readLen],
             incoming[..taken]);
    }

    method FillLoop(need: nat, incoming: seq<byte>, script: seq<Poll>) returns (ok: bool, taken: nat, used: nat)
      requires Keeps()
      modifies this`readBuf, this`readOff, this`readLen, this`received, this`offers, readBuf
      ensures Keeps() && (readBuf == old(readBuf) || fresh(readBuf))
      ensures need <= TWO_MIB && old(Valid()) ==> Valid()
      ensures taken <= |incoming| && used <= |script| && received == old(received) + incoming[..taken]
      ensures taken == Fetches(old(readLen - readOff), old(readBuf.Length), need, |incoming|, script)
      ensures ok == (need <= readLen - readOff)
      ensures Delivering(script) ==> taken == |incoming| || Takes(script) <= taken + Takes(script[used..])
      ensures Delivering(script) && !ok ==> taken == |incoming| || used == |script|
    {
      hide Account, GoodCapacity, Grown, Fetched, Fetches, GoesOn, Delivering, Takes;
      taken, used := 0, 0;
      var go := true;
      ghost var all := Fetches(readLen - readOff, readBuf.Length, need, |incoming|, script);
      assert incoming[..0] == [] && script[0..] == script;
      while go && used < |script| && readLen - readOff < need
        invariant Keeps() && (readBuf == old(readBuf) || fresh(readBuf))
        invariant need <= TWO_MIB && old(Valid()) ==> GoodCapacity(readBuf.Length)
        invariant taken <= |incoming| && used <= |script| && received == old(received) + incoming[..taken]
        invariant all == taken + if go then Fetches(readLen - readOff, readBuf.Length, need, |incoming| - taken,
                                                    script[used..])
                                 else 0
        invariant Delivering(script) ==> taken == |incoming| || Takes(script) <= taken + Takes(script[used..])
        invariant Delivering(script) && !go ==> taken == |incoming|
        invariant !go ==> readLen - readOff < need
        decreases |script| - used
      {
        FetchOne(readLen - readOff, readBuf.Length, need, |incoming| - taken, script, used);
        TakesRest(script, used);
        var n;
        go, n := FillOnce(need, incoming[taken..], script[used]);
        TakenMore(old(received), incoming, taken, n);
        taken := taken + n;
        used := used + 1;
      }
      if go { FetchNone(readLen - readOff, readBuf.Length, need, |incoming| - taken, script, used); }
      ok := readLen - readOff >= need;
    }

    // One turn of the loop: `go` unless it fails.
    method FillOnce(need: nat, incoming: seq<byte>, poll: Poll) returns (go: bool, n: nat)
      requires Keeps() && readLen - readOff < need
      modifies this`readBuf, this`readOff, this`readLen, this`received, this`offers, readBuf
      ensures Keeps() && (readBuf == old(readBuf) || fresh(readBuf))
      ensures need <= TWO_MIB && old(GoodCapacity(readBuf.Length)) ==> GoodCapacity(readBuf.Length)
      ensures n == Fetched(old(readLen - readOff), old(readBuf.Length), need, |incoming|, poll) <= |incoming|
      ensures received == old(received) + incoming[..n] && readLen - readOff == old(readLen - readOff) + n
      ensures go == GoesOn(n, old(readBuf.Length), need, poll)
      ensures go ==> readBuf.Length == Grown(old(readBuf.Length), 65536, need)
    {
      hide Account, GoodCapacity, Grown, Least;
      go, n := false, 0;
      assert incoming[..0] == [];
      if need <= TWO_MIB && GoodCapacity(readBuf.Length) { GrownGood(readBuf.Length, 65536, need); }
      var fits := Reserve(need, poll.memory);
      if fits {
        if readLen == readBuf.Length { assert false; }
        offers := offers + [readBuf.Length - readLen];
        match poll.recv {
          case Take(want) =>
            n := Least(want, Least(|incoming|, readBuf.Length - readLen));
            if n > 0 { Receive(incoming[..n]); }
            go := n > 0;
          case Interrupted => go := true;
          case Eof =>
          case WouldBlock =>
          case Broken =>
        }
      }
    }

    // The bytes of a whole packet leave the buffer.
    method Deliver(p: Framing.Packet)
      requires Valid() && FrontOf(policy, readBuf[readOff..readLen]) == Got(p)
      modifies this`readOff, this`readLen, this`delivered
      ensures Valid() && delivered == old(delivered) + [p]
      ensures Size(p) <= old(readLen - readOff)
      ensures readBuf[readOff..readLen] == old(readBuf[readOff..readLen])[Size(p)..]
    {
      hide Account, GoodCapacity, FrontOf;
      ghost var waiting := readBuf[readOff..readLen];
      OneDelivered(policy, received, delivered, waiting, p);
      assert waiting[Size(p)..] == readBuf[readOff + Size(p)..readLen];
      readOff := readOff + HEADER_SIZE + p.header.size;
      delivered := delivered + [p];
      if readOff == readLen { Rewind(); }
    }

    method Rewind()
      requires Valid() && readOff == readLen
      modifies this`readOff, this`readLen
      ensures Valid() && readOff == readLen
    {
      hide Account, GoodCapacity;
      assert readBuf[readOff..readLen] == readBuf[0..0];
      readOff := 0;
      readLen := 0;
    }

    // `recv_packet`: `memory` says whether the copy of the body is allocated. The outcome is what the front of the
    // stream read so far says; over a kernel that keeps delivering, what the front of the whole stream says.
    method RecvPacket(incoming: seq<byte>, script: seq<Poll>, memory: bool) returns (result: Outcome, taken: nat)
      requires Valid()
      modifies this`readBuf, this`readOff, this`readLen, this`received, this`delivered, this`offers, readBuf
      ensures Valid() && (readBuf == old(readBuf) || fresh(readBuf))
      ensures taken <= |incoming| && received == old(received) + incoming[..taken]
      ensures delivered == old(delivered) + if result.Received? then [result.packet] else []
      ensures var w := old(readBuf[readOff..readLen]) + incoming[..taken];
              && Verdict(result, FrontOf(policy, w), memory)
              && (result.Malformed? <==> HEADER_SIZE <= |w| && Headers.Decode(w[..HEADER_SIZE]).None?)
              && Leaves(result, w, readBuf[readOff..readLen])
      ensures Delivering(script) && |incoming| <= Takes(script) ==>
                Verdict(result, FrontOf(policy, old(readBuf[readOff..readLen]) + incoming), memory)
      ensures readBuf.Length <= TWO_MIB
    {
      hide Account, Headers.Decode, FrontOf, Fetches, Takes, Delivering, Verdict, Leaves;
      ghost var before := readBuf[readOff..readLen];
      result, taken := ReadPacket(incoming, script, memory);
      ghost var w := before + incoming[..taken];
      if Delivering(script) && |incoming| <= Takes(script) {
        VerdictExtends(policy, w, incoming[taken..], result, memory, taken == |incoming|);
        assert w + incoming[taken..] == before + incoming;
      }
    }

    method ReadPacket(incoming: seq<byte>, script: seq<Poll>, memory: bool) returns (result: Outcome, taken: nat)
      requires Valid()
      modifies this`readBuf, this`readOff, this`readLen, this`received, this`delivered, this`offers, readBuf
      ensures Valid() && (readBuf == old(readBuf) || fresh(readBuf))
      ensures taken <= |incoming| && received == old(received) + incoming[..taken]
      ensures delivered == old(delivered) + if result.Received? then [result.packet] else []
      ensures var w := old(readBuf[readOff..readLen]) + incoming[..taken];
              && Verdict(result, FrontOf(policy, w), memory)
              && (result.Malformed? <==> HEADER_SIZE <= |w| && Headers.Decode(w[..HEADER_SIZE]).None?)
              && Leaves(result, w, readBuf[readOff..readLen])
      ensures Delivering(script) && |incoming| <= Takes(script) && result.Unread? ==> taken == |incoming|
    {
      hide Account, GoodCapacity, Headers.Decode, Verify, FrontOf, Fetches, Takes, Delivering, Verdict, Leaves;
      ghost var before := readBuf[readOff..readLen];
      var ok, used;
      ok, taken, used := Fill(HEADER_SIZE, incoming, script);
      ghost var first := readBuf[readOff..readLen];
      FrontCases(policy, first);
      NoPacket(first, memory);
      TakesNone(script, used);
      if !ok { return Unread, taken; }
      Inside(readBuf, readOff, readLen, 0, HEADER_SIZE);
      var header := Headers.Decode(readBuf[readOff..readOff + HEADER_SIZE]);
      if header.None? { return Malformed, taken; }
      DecodeBound(first[..HEADER_SIZE]);
      var more;
      result, more := ReadBody(header.value, incoming[taken..], script[used..], memory);
      DeliveringRest(script, used);
      Joined(before, incoming, taken, more);
      Joined(old(received), incoming, taken, more);
      assert (first + incoming[taken..][..more])[..HEADER_SIZE] == first[..HEADER_SIZE];
      taken := taken + more;
    }

    // The header is in the buffer: read the payload, too.
    method ReadBody(h: Header, incoming: seq<byte>, script: seq<Poll>, memory: bool)
      returns (result: Outcome, taken: nat)
      requires Valid() && HEADER_SIZE <= readLen - readOff && h.size <= MAX_PAYLOAD
      requires Headers.Decode(readBuf[readOff..readLen][..HEADER_SIZE]) == Some(h)
      modifies this`readBuf, this`readOff, this`readLen, this`received, this`delivered, this`offers, readBuf
      ensures Valid() && (readBuf == old(readBuf) || fresh(readBuf)) && !result.Malformed?
      ensures taken <= |incoming| && received == old(received) + incoming[..taken]
      ensures delivered == old(delivered) + if result.Received? then [result.packet] else []
      ensures var w := old(readBuf[readOff..readLen]) + incoming[..taken];
              && Verdict(result, FrontOf(policy, w), memory)
              && Leaves(result, w, readBuf[readOff..readLen])
      ensures Delivering(script) && result.Unread? ==> taken == |incoming| || Takes(script) <= taken
    {
      hide Account, GoodCapacity, Headers.Decode, Verify, FrontOf, Fetches, Takes, Delivering, Verdict, Leaves;
      ghost var first := readBuf[readOff..readLen];
      var ok, used;
      ok, taken, used := Fill(HEADER_SIZE + h.size, incoming, script);
      ghost var w := readBuf[readOff..readLen];
      assert w[..HEADER_SIZE] == first[..HEADER_SIZE];
      FrontCases(policy, w);
      NoPacket(w, memory);
      TakesNone(script, used);
      if !ok { return Unread, taken; }
      result := Conclude(h, memory);
    }

    // The packet is in the buffer: verify it, copy it, deliver it.
    method Conclude(h: Header, memory: bool) returns (result: Outcome)
      requires Valid() && HEADER_SIZE + h.size <= readLen - readOff
      requires Headers.Decode(readBuf[readOff..readLen][..HEADER_SIZE]) == Some(h)
      modifies this`readOff, this`readLen, this`delivered
      ensures Valid() && !result.Malformed? && !result.Unread?
      ensures delivered == old(delivered) + if result.Received? then [result.packet] else []
      ensures var w := old(readBuf[readOff..readLen]);
              && Verdict(result, FrontOf(policy, w), memory)
              && Leaves(result, w, readBuf[readOff..readLen])
    {
      hide Account, GoodCapacity, Headers.Decode, Verify, FrontOf;
      ghost var s := readBuf[readOff..readLen];
      FrontCases(policy, s);
      var payload := readBuf[readOff + HEADER_SIZE..readOff + HEADER_SIZE + h.size];
      Inside(readBuf, readOff, readLen, HEADER_SIZE, HEADER_SIZE + h.size);
      if !Verify(h, payload, policy) { return Forged; }
      if !memory { return NoMemory; }
      result := Received(Framing.Packet(h, payload));
      Deliver(result.packet);
    }
  }

  // A packet, or why there is none.
  datatype Outcome = Received(packet: Framing.Packet) | Unread | Malformed | Forged | NoMemory

  // What a reader says of a stream whose front is this.
  predicate Verdict(result: Outcome, front: Front, memory: bool) {
    && (result.Unread? <==> front.More?)
    && (result.Malformed? || result.Forged? <==> front.Bad?)
    && (result.NoMemory? <==> front.Got? && !memory)
    && (result.Received? <==> front.Got? && memory)
    && (result.Received? ==> front == Got(result.packet))
  }

  // A packet that was received is gone from the buffer, all else is still there.
  predicate Leaves(result: Outcome, w: seq<byte>, rest: seq<byte>) {
    if result.Received? then Size(result.packet) <= |w| && rest == w[Size(result.packet)..] else rest == w
  }

  lemma NoPacket(w: seq<byte>, memory: bool)
    ensures Verdict(Unread, More, memory) && Verdict(Malformed, Bad, memory)
    ensures Leaves(Unread, w, w) && Leaves(Malformed, w, w)
  {
  }

  lemma Inside(buf: array<byte>, off: nat, len: nat, i: nat, j: nat)
    requires i <= j && off + j <= len <= buf.Length
    ensures buf[off..len][i..j] == buf[off + i..off + j]
  {
    forall k | 0 <= k < j - i ensures buf[off..len][i..j][k] == buf[off + i..off + j][k] {
      assert buf[off..len][i + k] == buf[off + (i + k)];
    }
  }

  lemma Joined(s: seq<byte>, incoming: seq<byte>, taken: nat, more: nat)
    requires taken + more <= |incoming|
    ensures s + incoming[..taken] + incoming[taken..][..more] == s + incoming[..taken + more]
  {
    assert incoming[..taken] + incoming[taken..][..more] == incoming[..taken + more];
  }

  // Bytes that were not read change nothing, unless more were wanted and none were left.
  lemma VerdictExtends(policy: Policy, w: seq<byte>, rest: seq<byte>, result: Outcome, memory: bool, done: bool)
    requires Verdict(result, FrontOf(policy, w), memory) && (result.Unread? ==> done) && (done ==> rest == [])
    ensures Verdict(result, FrontOf(policy, w + rest), memory)
  {
    hide FrontOf;
    if done { assert w + rest == w; } else { FrontExtends(policy, w, rest); }
  }

  // The front of a stream, by how much of it there is.
  lemma FrontCases(policy: Policy, s: seq<byte>)
    ensures |s| < HEADER_SIZE ==> FrontOf(policy, s) == More
    ensures HEADER_SIZE <= |s| ==>
              var d := Headers.Decode(s[..HEADER_SIZE]);
              if d.None? then FrontOf(policy, s) == Bad
              else if |s| < HEADER_SIZE + d.value.size then FrontOf(policy, s) == More
              else
                var payload := s[HEADER_SIZE..HEADER_SIZE + d.value.size];
                FrontOf(policy, s) == if Verify(d.value, payload, policy) then Got(Framing.Packet(d.value, payload))
                                      else Bad
  {
    hide Headers.Decode, Verify;
  }

  lemma DecodeBound(s: seq<byte>)
    requires |s| == HEADER_SIZE && Headers.Decode(s).Some?
    ensures Headers.Decode(s).value.size <= MAX_PAYLOAD
  {
  }

  lemma OneDelivered(policy: Policy, received: seq<byte>, delivered: seq<Framing.Packet>, waiting: seq<byte>,
                     p: Framing.Packet)
    requires Account(policy, received, delivered, waiting) && FrontOf(policy, waiting) == Got(p)
    ensures Size(p) <= |waiting| && Account(policy, received, delivered + [p], waiting[Size(p)..])
  {
    hide FrontOf, Verify, Wire;
    FrontGot(policy, waiting);
    WiresSnoc(policy, delivered, p);
    hide Wires;
    Assoc(Wires(policy, delivered), Wire(p), waiting[Size(p)..]);
  }

  lemma Cancel(policy: Policy, received: seq<byte>, delivered: seq<Framing.Packet>, before: seq<byte>, after: seq<byte>,
               data: seq<byte>)
    requires Account(policy, received, delivered, before) && Account(policy, received + data, delivered, after)
    ensures after == before + data
  {
    hide AllGenuine, Wires;
    var w := Wires(policy, delivered);
    assert after == (received + data)[|w|..] && before == received[|w|..];
  }

  lemma MoreReceived(policy: Policy, received: seq<byte>, delivered: seq<Packet>, waiting: seq<byte>, data: seq<byte>)
    requires Account(policy, received, delivered, waiting)
    ensures Account(policy, received + data, delivered, waiting + data)
  {
    hide AllGenuine, Wires;
    assert Wires(policy, delivered) + waiting + data == Wires(policy, delivered) + (waiting + data);
  }
}
