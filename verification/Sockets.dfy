/** recv and send as the kernel answers them, call by call, and what a loop over such answers comes to. */
module Sockets {
  // What a recv that is not an error takes from the stream, and how recv can end.
  datatype Recv = Take(n: nat) | Eof | WouldBlock | Interrupted | Broken

  // One turn of a read loop: whether a realloc would succeed, and what recv does.
  datatype Poll = Poll(memory: bool, recv: Recv)

  // What send does: n bytes accepted, or one of the errors; 0 bytes count as an error.
  datatype Send = Sent(n: nat) | Busy | Again | Lost

  function Least(a: nat, b: nat): (r: nat)
    ensures r <= a && r <= b && (r == a || r == b)
  {
    if a < b then a else b
  }

  // ---------- sending ----------

  // How many of `left` bytes go out before the answers run out or one ends the loop.
  function Accepts(left: nat, script: seq<Send>): (n: nat)
    ensures n <= left
  {
    if left == 0 || script == [] then 0
    else
      match script[0]
      case Sent(n) =>
        var m := Least(n, left);
        if m == 0 then 0 else m + Accepts(left - m, script[1..])
      case Again => Accepts(left, script[1..])
      case Busy => 0
      case Lost => 0
  }

  // Whether the loop ends with the socket broken.
  predicate Breaks(left: nat, script: seq<Send>) {
    if left == 0 || script == [] then false
    else
      match script[0]
      case Sent(n) => n == 0 || Breaks(left - Least(n, left), script[1..])
      case Again => Breaks(left, script[1..])
      case Busy => false
      case Lost => true
  }

  // The loop, one answer further on.
  lemma OneAnswer(left: nat, script: seq<Send>, i: nat)
    requires i < |script| && 0 < left
    ensures var m := if script[i].Sent? then Least(script[i].n, left) else 0;
            if m > 0 || script[i].Again? then
              && Accepts(left, script[i..]) == m + Accepts(left - m, script[i + 1..])
              && Breaks(left, script[i..]) == Breaks(left - m, script[i + 1..])
            else
              Accepts(left, script[i..]) == 0 && Breaks(left, script[i..]) == !script[i].Busy?
  {
    assert script[i..][1..] == script[i + 1..];
  }

  // The loop at its end.
  lemma NoAnswer(left: nat, script: seq<Send>, i: nat)
    requires i <= |script| && (left == 0 || i == |script|)
    ensures Accepts(left, script[i..]) == 0 && !Breaks(left, script[i..])
  {
  }

  // A kernel that keeps taking something.
  predicate Taking(script: seq<Send>) {
    forall i :: 0 <= i < |script| ==> script[i].Again? || (script[i].Sent? && script[i].n > 0)
  }

  function Sends(script: seq<Send>): nat {
    if script == [] then 0 else (if script[0].Sent? then 1 else 0) + Sends(script[1..])
  }

  // Everything goes out over a kernel that takes something as often as there are bytes.
  lemma {:induction false} AllAccepted(left: nat, script: seq<Send>)
    requires Taking(script) && left <= Sends(script)
    ensures Accepts(left, script) == left && !Breaks(left, script)
    decreases |script|
  {
    if left > 0 && script != [] {
      assert Taking(script[1..]);
      match script[0]
      case Sent(n) => AllAccepted(left - Least(n, left), script[1..]);
      case Again => AllAccepted(left, script[1..]);
    }
  }

  // ---------- receiving ----------

  // A kernel that keeps delivering something, and memory for it.
  predicate Delivering(script: seq<Poll>) {
    forall i :: 0 <= i < |script| ==>
      script[i].memory && (script[i].recv.Interrupted? || (script[i].recv.Take? && script[i].recv.n > 0))
  }

  function Takes(script: seq<Poll>): nat {
    if script == [] then 0 else (if script[0].recv.Take? then 1 else 0) + Takes(script[1..])
  }

  lemma TakesRest(script: seq<Poll>, i: nat)
    requires i < |script|
    ensures Takes(script[i..]) == (if script[i].recv.Take? then 1 else 0) + Takes(script[i + 1..])
    ensures Delivering(script) ==> Delivering(script[i..])
  {
    assert script[i..][1..] == script[i + 1..];
  }

  lemma DeliversAt(script: seq<Poll>, i: nat)
    requires i < |script|
    ensures Delivering(script) ==>
              script[i].memory && (script[i].recv.Interrupted? || (script[i].recv.Take? && script[i].recv.n > 0))
  {
  }

  lemma TakesNone(script: seq<Poll>, i: nat)
    requires i <= |script|
    ensures i == |script| ==> Takes(script[i..]) == 0
  {
  }

  lemma DeliveringRest(script: seq<Poll>, i: nat)
    requires i <= |script|
    ensures Delivering(script) ==> Delivering(script[i..])
  {
  }
}
