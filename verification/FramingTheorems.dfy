/** Chunking independence and delivery for the stream of packets of module Framing. */
module FramingTheorems {
  import opened Sequences
  import opened Words
  import opened Integrity
  import opened Framing

  // ---------- chunking independence ----------

  // However the stream is cut into recv chunks: the connection closes if and only if the first pass up
  // to a closing event does, the packets up to that event are the same, and until then nothing differs.
  lemma {:induction false} FeedUntil(r: Receiver, chunks: seq<seq<byte>>)
    ensures var f, u := Feed(r, chunks), Until(r, [], Flatten(chunks));
            && f.closing == u.closing && UpToClose(f.handled) == u.handled
            && (!u.closing ==> f == u && Open(u.handled))
    decreases |chunks|
  {
    hide FrontOf, Accepted, Parse, Until, UpToClose;
    if chunks == [] {
      EmptyStream(r);
    } else {
      var init, last := chunks[..|chunks| - 1], chunks[|chunks| - 1];
      FeedUntil(r, init);
      UntilExtends(r, [], Flatten(init), last);
      var f := Feed(r, init);
      if !f.closing {
        ParseUntil(r, f.handled, f.rest + last);
      }
    }
  }

  lemma EmptyStream(r: Receiver)
    ensures Until(r, [], []) == Progress([], [], false) && UpToClose([]) == []
  {
  }

  // The same, against one parse of the whole stream.
  lemma ChunkingIndependent(r: Receiver, chunks: seq<seq<byte>>)
    ensures var f, p := Feed(r, chunks), Parse(r, [], Flatten(chunks));
            && f.closing == p.closing && UpToClose(f.handled) == UpToClose(p.handled)
            && (!p.closing ==> f == p)
  {
    hide Feed, Parse, Until, UpToClose;
    FeedUntil(r, chunks);
    ParseUntil(r, [], Flatten(chunks));
  }

  // ---------- when the packets after a DISCONNECT are handled ----------

  // The bytes after the first DISCONNECT begin with a whole packet.
  predicate Trailing(r: Receiver, s: seq<byte>) {
    var u := Until(r, [], s);
    Ended([], u.handled) && FrontOf(r.policy, u.rest).Got?
  }

  ghost predicate SameForAllChunkings(r: Receiver, s: seq<byte>) {
    forall chunks :: Flatten(chunks) == s ==> Feed(r, chunks).handled == Parse(r, [], s).handled
  }

  // The last packet handled beyond `past` is a DISCONNECT.
  predicate Ended(past: seq<Packet>, h: seq<Packet>) {
    |past| < |h| && Disconnects(h[|h| - 1])
  }

  lemma UntilStep(r: Receiver, past: seq<Packet>, s: seq<byte>, p: Packet)
    requires FrontOf(r.policy, s) == Got(p) && Size(p) <= |s| && !Disconnects(p) && Accepted(r, past, p)
    ensures Until(r, past, s) == Until(r, past + [p], s[Size(p)..])
    ensures Parse(r, past, s) == Parse(r, past + [p], s[Size(p)..])
  {
    hide FrontOf, Accepted;
  }

  lemma FrontPrefix(policy: Policy, s: seq<byte>, p: Packet, n: nat)
    requires FrontOf(policy, s) == Got(p) && Size(p) <= n <= |s|
    ensures FrontOf(policy, s[..n]) == Got(p) && s[..n][Size(p)..] == s[Size(p)..][..n - Size(p)]
  {
    hide Wire, FrontOf, Verify;
    FrontGot(policy, s);
    GenuineSize(policy, p);
    CutPrefix(Wire(p), s, n);
    FrontWire(policy, p, s[Size(p)..n]);
  }

  lemma CutPrefix(w: seq<byte>, s: seq<byte>, n: nat)
    requires |w| <= n <= |s| && s == w + s[|w|..]
    ensures s[..n] == w + s[|w|..n] && s[..n][|w|..] == s[|w|..][..n - |w|]
  {
  }

  // The unconsumed bytes are a suffix. Two chunks, cut after the first DISCONNECT, handle nothing behind it.
  lemma {:induction false} UntilTight(r: Receiver, past: seq<Packet>, s: seq<byte>)
    requires Open(past)
    ensures var u := Until(r, past, s);
            && |u.rest| <= |s| && s[|s| - |u.rest|..] == u.rest && past <= u.handled
            && (Ended(past, u.handled) ==> Parse(r, past, s[..|s| - |u.rest|]) == Progress(u.handled, [], true))
    decreases |s|
  {
    var front := FrontOf(r.policy, s);
    if !front.Got? || !Accepted(r, past, front.packet) {
      TightStop(r, past, s);
    } else {
      hide FrontOf, Accepted, Parse, Until;
      var p := front.packet;
      FrontGot(r.policy, s);
      if Disconnects(p) {
        TightDisconnect(r, past, s, p);
      } else {
        TightNext(r, past, s, p);
      }
    }
  }

  lemma TightStop(r: Receiver, past: seq<Packet>, s: seq<byte>)
    requires var front := FrontOf(r.policy, s); !front.Got? || !Accepted(r, past, front.packet)
    ensures var u := Until(r, past, s); u.rest == s && past <= u.handled && !Ended(past, u.handled)
  {
    hide FrontOf;
  }

  lemma TightNext(r: Receiver, past: seq<Packet>, s: seq<byte>, p: Packet)
    requires FrontOf(r.policy, s) == Got(p) && 0 < Size(p) <= |s| && !Disconnects(p) && Accepted(r, past, p)
    requires Open(past)
    ensures var u := Until(r, past, s);
            && |u.rest| <= |s| && s[|s| - |u.rest|..] == u.rest && past <= u.handled
            && (Ended(past, u.handled) ==> Parse(r, past, s[..|s| - |u.rest|]) == Progress(u.handled, [], true))
    decreases |s|, 0
  {
    hide FrontOf, Accepted, Parse, Until;
    var t := s[Size(p)..];
    var h := past + [p];
    UntilStep(r, past, s, p);
    UntilTight(r, h, t);
    var u := Until(r, h, t);
    var n := |s| - |u.rest|;
    if Ended(past, u.handled) {
      FrontPrefix(r.policy, s, p, n);
      UntilStep(r, past, s[..n], p);
      assert u.handled[|past|] == p;
    }
  }

  lemma TightDisconnect(r: Receiver, past: seq<Packet>, s: seq<byte>, p: Packet)
    requires FrontOf(r.policy, s) == Got(p) && Size(p) <= |s| && Disconnects(p) && Accepted(r, past, p)
    ensures Until(r, past, s) == Progress(past + [p], s[Size(p)..], true)
    ensures Parse(r, past, s[..Size(p)]) == Progress(past + [p], [], true)
  {
    FrontPrefix(r.policy, s, p, Size(p));
    assert FrontOf(r.policy, []) == More;
    hide FrontOf, Accepted;
    assert Parse(r, past + [p], []) == Progress(past + [p], [], false);
    assert s[..Size(p)][Size(p)..] == [];
  }

  // Every chunking handles the same packets if and only if no whole packet follows the first DISCONNECT.
  lemma SameUnlessTrailing(r: Receiver, s: seq<byte>)
    ensures SameForAllChunkings(r, s) <==> !Trailing(r, s)
  {
    hide FrontOf, Parse, Until, Feed, UpToClose;
    if Trailing(r, s) {
      TrailingDiffers(r, s);
    } else {
      forall chunks | Flatten(chunks) == s ensures Feed(r, chunks).handled == Parse(r, [], s).handled {
        NoTrailing(r, chunks);
      }
    }
  }

  lemma TrailingDiffers(r: Receiver, s: seq<byte>)
    requires Trailing(r, s)
    ensures !SameForAllChunkings(r, s)
  {
    hide FrontOf, Parse, Until;
    var u := Until(r, [], s);
    UntilTight(r, [], s);
    DisconnectCloses(r, [], s);
    var n := |s| - |u.rest|;
    var chunks := [s[..n], u.rest];
    assert chunks[..1] == [s[..n]] && chunks[..1][..0] == [];
    assert [] + s[..n] == s[..n];
    assert Flatten(chunks[..1]) == s[..n] by { assert Flatten([]) == []; }
    assert Flatten(chunks) == s;
    assert Feed(r, chunks[..1]) == u.(rest := []) by { assert Feed(r, []) == Progress([], [], false); }
    assert Feed(r, chunks).handled == u.handled;
    ParseBeyond(r, [], s);
    ParseMore(r, u.handled, u.rest);
  }

  lemma {:induction false} DisconnectCloses(r: Receiver, past: seq<Packet>, s: seq<byte>)
    requires Open(past)
    ensures var u := Until(r, past, s); Ended([], u.handled) ==> u.closing
    decreases |s|
  {
    hide FrontOf, Accepted, Until;
    var front := FrontOf(r.policy, s);
    UntilStop(r, past, s);
    if front.Got? && Accepted(r, past, front.packet) {
      FrontGot(r.policy, s);
      UntilOne(r, past, s, front.packet);
      if !Disconnects(front.packet) {
        DisconnectCloses(r, past + [front.packet], s[Size(front.packet)..]);
      }
    }
  }

  // One pass goes on behind the first DISCONNECT.
  lemma {:induction false} ParseBeyond(r: Receiver, past: seq<Packet>, s: seq<byte>)
    requires Open(past)
    ensures var u := Until(r, past, s);
            past <= u.handled &&
            (Ended(past, u.handled) ==> Parse(r, past, s).handled == Parse(r, u.handled, u.rest).handled)
    decreases |s|
  {
    var front := FrontOf(r.policy, s);
    if !front.Got? || !Accepted(r, past, front.packet) {
      TightStop(r, past, s);
    } else {
      hide FrontOf, Accepted;
      FrontGot(r.policy, s);
      var p := front.packet;
      if !Disconnects(p) {
        hide Parse, Until;
        UntilStep(r, past, s, p);
        ParseBeyond(r, past + [p], s[Size(p)..]);
      }
    }
  }

  lemma ParseMore(r: Receiver, past: seq<Packet>, s: seq<byte>)
    ensures FrontOf(r.policy, s).Got? <==> |past| < |Parse(r, past, s).handled|
    ensures !FrontOf(r.policy, s).Got? ==> Parse(r, past, s).handled == past
  {
    hide FrontOf, Accepted;
    var front := FrontOf(r.policy, s);
    if front.Got? {
      FrontGot(r.policy, s);
      ParseGrows(r, past + [front.packet], s[Size(front.packet)..]);
    }
  }

  lemma NoTrailing(r: Receiver, chunks: seq<seq<byte>>)
    requires !Trailing(r, Flatten(chunks))
    ensures Feed(r, chunks).handled == Parse(r, [], Flatten(chunks)).handled
  {
    hide FrontOf, Parse, Until, Feed, UpToClose;
    var s := Flatten(chunks);
    FeedUntil(r, chunks);
    ParseUntil(r, [], s);
    NothingBeyond(r, s);
    FeedWithin(r, chunks);
    CutShorter(Feed(r, chunks).handled);
  }

  lemma {:induction false} CutShorter(h: seq<Packet>)
    ensures |UpToClose(h)| <= |h|
  {
    if h != [] { CutShorter(h[1..]); }
  }

  lemma NothingBeyond(r: Receiver, s: seq<byte>)
    requires !Trailing(r, s)
    ensures Parse(r, [], s).handled == Until(r, [], s).handled
  {
    hide FrontOf, Parse, Until, UpToClose;
    ParseUntil(r, [], s);
    ParseBeyond(r, [], s);
    var u := Until(r, [], s);
    ParseMore(r, u.handled, u.rest);
    SameWithoutDisconnect(r, [], s);
  }

  lemma {:induction false} SameWithoutDisconnect(r: Receiver, past: seq<Packet>, s: seq<byte>)
    requires Open(past)
    ensures var u := Until(r, past, s);
            past <= u.handled &&
            (!Ended(past, u.handled) ==> Parse(r, past, s).handled == u.handled)
    decreases |s|
  {
    hide FrontOf, Accepted;
    var front := FrontOf(r.policy, s);
    if front.Got? {
      FrontGot(r.policy, s);
      var p := front.packet;
      if Accepted(r, past, p) && !Disconnects(p) {
        SameWithoutDisconnect(r, past + [p], s[Size(p)..]);
      }
    }
  }

  // No chunking handles more than one pass over the whole stream.
  lemma {:induction false} FeedWithin(r: Receiver, chunks: seq<seq<byte>>)
    ensures Feed(r, chunks).handled <= Parse(r, [], Flatten(chunks)).handled
    ensures !Feed(r, chunks).closing ==>
              Parse(r, [], Flatten(chunks)) == Progress(Feed(r, chunks).handled, Feed(r, chunks).rest, false)
    decreases |chunks|
  {
    hide FrontOf, Parse;
    ChunkingIndependent(r, chunks);
    if chunks == [] {
      ParseGrows(r, [], Flatten(chunks));
    } else {
      var init, last := chunks[..|chunks| - 1], chunks[|chunks| - 1];
      FeedWithin(r, init);
      ParseExtends(r, [], Flatten(init), last);
      if !Feed(r, init).closing { ParseContinues(r, [], Flatten(init), last); }
    }
  }

  // A longer buffer handles at least the packets of a shorter one ...
  lemma {:induction false} ParseExtends(r: Receiver, past: seq<Packet>, s: seq<byte>, t: seq<byte>)
    ensures Parse(r, past, s).handled <= Parse(r, past, s + t).handled
    decreases |s|
  {
    hide FrontOf, Accepted, Parse;
    var front := FrontOf(r.policy, s);
    ParseStop(r, past, s);
    if front.More? {
      ParseGrows(r, past, s + t);
    } else {
      FrontExtends(r.policy, s, t);
      ParseStop(r, past, s + t);
      if front.Got? && Accepted(r, past, front.packet) {
        BothStep(r, past, s, t, front.packet);
        ParseExtends(r, past + [front.packet], s[Size(front.packet)..], t);
      }
    }
  }

  // ... and, unless that one closed, goes on where it stopped.
  lemma {:induction false} ParseContinues(r: Receiver, past: seq<Packet>, s: seq<byte>, t: seq<byte>)
    requires !Parse(r, past, s).closing
    ensures var p := Parse(r, past, s); Parse(r, past, s + t) == Parse(r, p.handled, p.rest + t)
    decreases |s|
  {
    hide FrontOf, Accepted, Parse;
    var front := FrontOf(r.policy, s);
    ParseStop(r, past, s);
    if !front.More? {
      FrontExtends(r.policy, s, t);
      BothStep(r, past, s, t, front.packet);
      ParseContinues(r, past + [front.packet], s[Size(front.packet)..], t);
    }
  }

  lemma BothStep(r: Receiver, past: seq<Packet>, s: seq<byte>, t: seq<byte>, p: Packet)
    requires FrontOf(r.policy, s) == Got(p) && FrontOf(r.policy, s + t) == Got(p) && Accepted(r, past, p)
    ensures 0 < Size(p) <= |s|
    ensures var a, b := Parse(r, past + [p], s[Size(p)..]), Parse(r, past + [p], s[Size(p)..] + t);
            && Parse(r, past, s) == a.(closing := a.closing || Disconnects(p))
            && Parse(r, past, s + t) == b.(closing := b.closing || Disconnects(p))
  {
    hide FrontOf, Accepted, Parse;
    FrontGot(r.policy, s);
    assert (s + t)[Size(p)..] == s[Size(p)..] + t;
    ParseOne(r, past, s, p);
    ParseOne(r, past, s + t, p);
  }

  // ---------- delivery ----------

  predicate AllGenuine(policy: Policy, ps: seq<Packet>) {
    forall i :: 0 <= i < |ps| ==> Genuine(policy, ps[i])
  }

  // The wire form of a sequence of packets.
  function Wires(policy: Policy, ps: seq<Packet>): seq<byte>
    requires AllGenuine(policy, ps)
  {
    if ps == [] then [] else Wires(policy, ps[..|ps| - 1]) + Wire(ps[|ps| - 1])
  }

  lemma {:induction false} WiresCons(policy: Policy, p: Packet, ps: seq<Packet>)
    requires Genuine(policy, p) && AllGenuine(policy, ps)
    ensures Wires(policy, [p] + ps) == Wire(p) + Wires(policy, ps)
  {
    hide Genuine, Wire;
    if ps == [] {
      assert [p] + ps == [p];
      assert Wires(policy, []) == [];
      assert [p][..0] == [];
    } else {
      var init := ps[..|ps| - 1];
      WiresCons(policy, p, init);
      assert ([p] + ps)[..|ps|] == [p] + init;
    }
  }

  // Until it closes, the connection has split the stream into whole packets and an unconsumed rest.
  lemma {:induction false} FeedConserves(r: Receiver, chunks: seq<seq<byte>>)
    requires !Feed(r, chunks).closing
    ensures var f := Feed(r, chunks);
            && AllGenuine(r.policy, f.handled) && Flatten(chunks) == Wires(r.policy, f.handled) + f.rest
            && FrontOf(r.policy, f.rest).More?
  {
    hide FrontOf, Parse, Genuine;
    if chunks == [] {
      NothingYet(r.policy);
    } else {
      var init, last := chunks[..|chunks| - 1], chunks[|chunks| - 1];
      FeedConserves(r, init);
      var f := Feed(r, init);
      hide Wires;
      ParseConserves(r, f.handled, f.rest + last);
      Assoc(Wires(r.policy, f.handled), f.rest, last);
    }
  }

  lemma NothingYet(policy: Policy)
    ensures FrontOf(policy, []) == More
  {
  }

  lemma {:induction false} ParseConserves(r: Receiver, past: seq<Packet>, s: seq<byte>)
    requires AllGenuine(r.policy, past) && !Parse(r, past, s).closing
    ensures var p := Parse(r, past, s);
            && AllGenuine(r.policy, p.handled)
            && Wires(r.policy, past) + s == Wires(r.policy, p.handled) + p.rest
            && FrontOf(r.policy, p.rest).More?
    decreases |s|
  {
    hide FrontOf, Accepted, Verify, Wire;
    var front := FrontOf(r.policy, s);
    if front.Got? {
      FrontGot(r.policy, s);
      var p := front.packet;
      var h := past + [p];
      assert h[..|past|] == past;
      ParseConserves(r, h, s[Size(p)..]);
      Assoc(Wires(r.policy, past), Wire(p), s[Size(p)..]);
    }
  }

  // The receiver's handlers take all of ps after `past`.
  ghost predicate AcceptsAll(r: Receiver, past: seq<Packet>, ps: seq<Packet>) {
    forall k :: 0 <= k < |ps| ==> Accepted(r, past + ps[..k], ps[k])
  }

  // A stream of genuine packets, parsed in one go, is exactly those packets.
  lemma {:induction false} ParseWires(r: Receiver, past: seq<Packet>, ps: seq<Packet>)
    requires AllGenuine(r.policy, ps) && AcceptsAll(r, past, ps)
    ensures Parse(r, past, Wires(r.policy, ps)) == Progress(past + ps, [], !Open(ps))
    decreases |ps|
  {
    hide FrontOf, Genuine, Wire, Accepted;
    if ps == [] {
      NothingYet(r.policy);
      assert past + ps == past;
    } else {
      var p, tail := ps[0], ps[1..];
      AcceptsTail(r, past, ps);
      GenuineTail(r.policy, ps);
      hide Wires, Parse, Open, AcceptsAll, AllGenuine;
      WiresCons(r.policy, p, tail);
      assert ps == [p] + tail;
      FrontWire(r.policy, p, Wires(r.policy, tail));
      GenuineSize(r.policy, p);
      ParseOne(r, past, Wires(r.policy, ps), p);
      ParseWires(r, past + [p], tail);
      OpenCons(p, tail);
      assert past + [p] + tail == past + ps;
    }
  }

  lemma GenuineTail(policy: Policy, ps: seq<Packet>)
    requires AllGenuine(policy, ps) && ps != []
    ensures Genuine(policy, ps[0]) && AllGenuine(policy, ps[1..])
  {
    hide Genuine;
  }

  lemma AcceptsTail(r: Receiver, past: seq<Packet>, ps: seq<Packet>)
    requires AcceptsAll(r, past, ps) && ps != []
    ensures Accepted(r, past, ps[0]) && AcceptsAll(r, past + [ps[0]], ps[1..])
  {
    hide Accepted;
    var p, tail := ps[0], ps[1..];
    assert past + ps[..0] == past;
    forall k | 0 <= k < |tail| ensures Accepted(r, past + [p] + tail[..k], tail[k]) {
      assert past + [p] + tail[..k] == past + ps[..k + 1];
      assert tail[k] == ps[k + 1];
    }
  }

  lemma OpenCons(p: Packet, tail: seq<Packet>)
    ensures Open([p] + tail) <==> !Disconnects(p) && Open(tail)
  {
    if Open([p] + tail) {
      assert ([p] + tail)[0] == p;
      forall i | 0 <= i < |tail| ensures !Disconnects(tail[i]) { assert ([p] + tail)[i + 1] == tail[i]; }
    }
  }

  // Whatever the chunks: packets signed under the receiver's policy arrive, unchanged and in order.
  lemma Delivered(r: Receiver, ps: seq<Packet>, chunks: seq<seq<byte>>)
    requires AllGenuine(r.policy, ps) && AcceptsAll(r, [], ps) && Flatten(chunks) == Wires(r.policy, ps)
    ensures UpToClose(Feed(r, chunks).handled) == UpToClose(ps)
    ensures Open(ps) ==> Feed(r, chunks) == Progress(ps, [], false)
  {
    hide FrontOf, Parse, Feed, UpToClose, Genuine, Accepted, Wires;
    ChunkingIndependent(r, chunks);
    ParseWires(r, [], ps);
    assert [] + ps == ps;
  }

  // Whatever the handlers say, a stream of genuine packets hands over some of the first of them.
  lemma {:induction false} ParseWithin(r: Receiver, past: seq<Packet>, ps: seq<Packet>)
    requires AllGenuine(r.policy, ps)
    ensures Parse(r, past, Wires(r.policy, ps)).handled <= past + ps
    decreases |ps|
  {
    hide FrontOf, Genuine, Wire, Accepted;
    if ps == [] {
      NothingYet(r.policy);
    } else {
      var p, tail := ps[0], ps[1..];
      GenuineTail(r.policy, ps);
      hide Wires, Parse, AllGenuine;
      WiresCons(r.policy, p, tail);
      assert ps == [p] + tail;
      FrontWire(r.policy, p, Wires(r.policy, tail));
      GenuineSize(r.policy, p);
      ParseStop(r, past, Wires(r.policy, ps));
      assert past + [p] <= past + ps && past + [p] + tail == past + ps;
      if Accepted(r, past, p) {
        ParseOne(r, past, Wires(r.policy, ps), p);
        ParseWithin(r, past + [p], tail);
      }
    }
  }

  // However much of the stream has arrived and in whatever chunks, the packets handled are the first ones sent.
  lemma HandledWithin(r: Receiver, ps: seq<Packet>, chunks: seq<seq<byte>>)
    requires AllGenuine(r.policy, ps) && Flatten(chunks) <= Wires(r.policy, ps)
    ensures Feed(r, chunks).handled <= ps
  {
    hide Parse, Feed, Wires, AllGenuine, Flatten;
    var s, all := Flatten(chunks), Wires(r.policy, ps);
    FeedWithin(r, chunks);
    ParseExtends(r, [], s, all[|s|..]);
    assert s + all[|s|..] == all;
    ParseWithin(r, [], ps);
    assert [] + ps == ps;
  }

  // A prefix of such a stream yields a prefix of the packets, and nothing is refused.
  lemma DeliveredSoFar(r: Receiver, ps: seq<Packet>, chunks: seq<seq<byte>>)
    requires AllGenuine(r.policy, ps) && AcceptsAll(r, [], ps) && Open(ps)
    requires Flatten(chunks) <= Wires(r.policy, ps)
    ensures Feed(r, chunks).handled <= ps && !Feed(r, chunks).closing
  {
    hide FrontOf, Parse, Genuine, Accepted, Wires, Until, UpToClose;
    var all, s := Wires(r.policy, ps), Flatten(chunks);
    var rest := all[|s|..];
    assert s + rest == all;
    ParseWires(r, [], ps);
    assert [] + ps == ps;
    ParseUntil(r, [], all);
    UntilExtends(r, [], s, rest);
    FeedUntil(r, chunks);
    ParseExtends(r, [], s, rest);
    ParseUntil(r, [], s);
  }

  // A DISCONNECT and a PING in one chunk are both handled; in two chunks the PING is not.
  lemma OneChunkOrTwo(r: Receiver, bye: Packet, ping: Packet)
    requires Genuine(r.policy, bye) && Disconnects(bye)
    requires Genuine(r.policy, ping) && !Disconnects(ping) && r.accepts([bye, ping])
    ensures Feed(r, [Wire(bye) + Wire(ping)]).handled == [bye, ping]
    ensures Feed(r, [Wire(bye), Wire(ping)]).handled == [bye]
  {
    hide FrontOf, Verify, Wire, Parse;
    BothAccepted(r, bye, ping);
    One(r, [bye, ping]);
    assert [bye, ping][..1] == [bye] && [bye][..0] == [];
    assert Wires(r.policy, [bye]) == Wire(bye) by { assert Wires(r.policy, []) == []; }
    One(r, [bye]);
    assert !Open([bye]) by { assert Disconnects([bye][0]); }
    var two := [Wire(bye), Wire(ping)];
    assert two[..1] == [Wire(bye)];
  }

  lemma BothAccepted(r: Receiver, bye: Packet, ping: Packet)
    requires Disconnects(bye) && r.accepts([bye, ping])
    ensures AcceptsAll(r, [], [bye, ping]) && AcceptsAll(r, [], [bye])
  {
    var ps := [bye, ping];
    assert [] + ps[..1] + [ping] == [bye, ping];
    forall k | 0 <= k < |ps| ensures Accepted(r, [] + ps[..k], ps[k]) {}
  }

  lemma One(r: Receiver, ps: seq<Packet>)
    requires AllGenuine(r.policy, ps) && AcceptsAll(r, [], ps)
    ensures Feed(r, [Wires(r.policy, ps)]).handled == ps && Feed(r, [Wires(r.policy, ps)]).closing == !Open(ps)
  {
    hide FrontOf, Genuine, Wire, Parse, Accepted, Wires;
    ParseWires(r, [], ps);
    var w := Wires(r.policy, ps);
    assert [w][..0] == [] && [] + w == w && [] + ps == ps;
  }

  // So not every chunking handles the same packets.
  lemma ChunkingMatters(r: Receiver, bye: Packet, ping: Packet)
    requires Genuine(r.policy, bye) && Disconnects(bye)
    requires Genuine(r.policy, ping) && !Disconnects(ping) && r.accepts([bye, ping])
    ensures !SameForAllChunkings(r, Wire(bye) + Wire(ping))
  {
    hide Wire, Feed, Parse, FrontOf, Verify, Flatten;
    OneChunkOrTwo(r, bye, ping);
    Whole([Wire(bye) + Wire(ping)]);
    Whole([Wire(bye), Wire(ping)]);
    assert |[bye, ping]| == 2 && |[bye]| == 1;
  }
}
