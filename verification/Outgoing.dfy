/** What a connection has put into its write buffer: whole packets, and headers whose payload found no memory. */
module Outgoing {
  import opened Words
  import opened Headers
  import opened Integrity
  import opened Framing
  import opened FramingTheorems

  // One `queue_packet` that appended something: both parts, or the header only.
  datatype Piece = Piece(packet: Packet, whole: bool)

  predicate Sound(policy: Policy, pieces: seq<Piece>) {
    forall i :: 0 <= i < |pieces| ==> Genuine(policy, pieces[i].packet)
  }

  function PieceBytes(piece: Piece): seq<byte>
    requires Encodable(piece.packet.header)
  {
    if piece.whole then Wire(piece.packet) else Layout(piece.packet.header)
  }

  // The bytes of all pieces, in order.
  function Output(policy: Policy, pieces: seq<Piece>): seq<byte>
    requires Sound(policy, pieces)
  {
    if pieces == [] then [] else Output(policy, pieces[..|pieces| - 1]) + PieceBytes(pieces[|pieces| - 1])
  }

  // The packets queued in full, and the number of stray headers.
  function PacketsOf(pieces: seq<Piece>): seq<Packet> {
    if pieces == [] then []
    else
      var last := pieces[|pieces| - 1];
      PacketsOf(pieces[..|pieces| - 1]) + if last.whole then [last.packet] else []
  }

  function Strays(pieces: seq<Piece>): nat {
    if pieces == [] then 0
    else Strays(pieces[..|pieces| - 1]) + if pieces[|pieces| - 1].whole then 0 else 1
  }

  lemma PieceSnoc(policy: Policy, pieces: seq<Piece>, piece: Piece)
    requires Sound(policy, pieces) && Genuine(policy, piece.packet)
    ensures Sound(policy, pieces + [piece])
    ensures Output(policy, pieces + [piece]) == Output(policy, pieces) + PieceBytes(piece)
    ensures PacketsOf(pieces + [piece]) == PacketsOf(pieces) + if piece.whole then [piece.packet] else []
    ensures Strays(pieces + [piece]) == Strays(pieces) + if piece.whole then 0 else 1
  {
    hide Genuine, PieceBytes;
    assert (pieces + [piece])[..|pieces|] == pieces;
  }

  // Every stray header shifts the output by 34 bytes; without one the output is the queued packets.
  lemma {:induction false} OutputLength(policy: Policy, pieces: seq<Piece>)
    requires Sound(policy, pieces)
    ensures AllGenuine(policy, PacketsOf(pieces))
    ensures |Output(policy, pieces)| == |Wires(policy, PacketsOf(pieces))| + HEADER_SIZE * Strays(pieces)
    ensures Strays(pieces) == 0 ==> Output(policy, pieces) == Wires(policy, PacketsOf(pieces))
  {
    hide Genuine, Wire, Layout;
    if pieces != [] {
      var init, last := pieces[..|pieces| - 1], pieces[|pieces| - 1];
      OutputLength(policy, init);
      if last.whole {
        WiresSnoc(policy, PacketsOf(init), last.packet);
      } else {
        assert PacketsOf(pieces) == PacketsOf(init);
      }
    }
  }

  // The output is the concatenation of the queued packets if and only if no header went astray.
  lemma OutputIffNoStray(policy: Policy, pieces: seq<Piece>)
    requires Sound(policy, pieces)
    ensures AllGenuine(policy, PacketsOf(pieces))
    ensures Output(policy, pieces) == Wires(policy, PacketsOf(pieces)) <==> Strays(pieces) == 0
  {
    hide Sound, Output, Wires, PacketsOf, Strays, AllGenuine;
    OutputLength(policy, pieces);
  }

  lemma WiresSnoc(policy: Policy, ps: seq<Packet>, p: Packet)
    requires AllGenuine(policy, ps) && Genuine(policy, p)
    ensures AllGenuine(policy, ps + [p]) && Wires(policy, ps + [p]) == Wires(policy, ps) + Wire(p)
  {
    hide Genuine, Wire;
    assert (ps + [p])[..|ps|] == ps;
  }
}
