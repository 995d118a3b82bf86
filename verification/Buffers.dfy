/** Buffers that grow by doubling, as in src/server.c and src/client.c. */
module Buffers {
  const TWO_MIB: nat := 2097152

  // `while (next_cap < need) next_cap *= 2`
  function Doubled(cap: nat, need: nat): (r: nat)
    requires 0 < cap
    ensures need <= r && cap <= r
    decreases need - cap
  {
    if need <= cap then cap else Doubled(cap * 2, need)
  }

  // The capacity after room was made for `need` bytes in a buffer that starts with `first`.
  function Grown(cap: nat, first: nat, need: nat): (r: nat)
    requires 0 < first
    ensures need <= r && cap <= r
  {
    if need <= cap then cap else Doubled(if cap != 0 then cap else first, need)
  }

  // Whether `extra` more bytes can be had: there is room, or memory to make some.
  predicate Room(len: nat, cap: nat, extra: nat, memory: bool) {
    extra == 0 || len + extra <= cap || memory
  }

  // The capacities that doubling from 4096 or 65536 reaches, up to 2 MiB.
  predicate GoodCapacity(n: nat) {
    n == 0 || n == 4096 || n == 8192 || n == 16384 || n == 32768 || n == 65536 || n == 131072 || n == 262144 ||
    n == 524288 || n == 1048576 || n == TWO_MIB
  }

  lemma {:induction false} DoubledGood(cap: nat, need: nat)
    requires 0 < cap && GoodCapacity(cap) && need <= TWO_MIB
    ensures GoodCapacity(Doubled(cap, need))
    decreases need - cap
  {
    if cap < need { DoubledGood(cap * 2, need); }
  }

  // A buffer asked for at most 2 MiB never exceeds 2 MiB.
  lemma GrownGood(cap: nat, first: nat, need: nat)
    requires GoodCapacity(cap) && (first == 4096 || first == 65536) && need <= TWO_MIB
    ensures GoodCapacity(Grown(cap, first, need)) && Grown(cap, first, need) <= TWO_MIB
  {
    if cap < need { DoubledGood(if cap != 0 then cap else first, need); }
  }

  // A buffer with room for `need`: the one at hand, or a copy of it in one that doubling has made large enough.
  method Fit<T(0)>(buf: array<T>, first: nat, need: nat, memory: bool) returns (ok: bool, next: array<T>)
    requires 0 < first
    ensures ok == (need <= buf.Length || memory) && (next == buf || fresh(next))
    ensures next.Length == (if ok then Grown(buf.Length, first, need) else buf.Length)
    ensures next[..buf.Length] == buf[..]
  {
    if need <= buf.Length { return true, buf; }
    var cap := if buf.Length != 0 then buf.Length else first;
    while cap < need
      invariant 0 < cap && buf.Length <= cap && Doubled(cap, need) == Grown(buf.Length, first, need)
    {
      cap := cap * 2;
    }
    if !memory { return false, buf; }
    ok, next := true, new T[cap];
    forall i | 0 <= i < buf.Length { next[i] := buf[i]; }
  }

  // memcpy to `at`.
  method Copy<T>(buf: array<T>, at: nat, data: seq<T>)
    requires at + |data| <= buf.Length
    modifies buf
    ensures buf[..at + |data|] == old(buf[..at]) + data
  {
    ghost var front := buf[..at];
    forall i | 0 <= i < |data| { buf[at + i] := data[i]; }
    forall k | 0 <= k < at + |data| ensures buf[k] == (front + data)[k] {
      if k >= at { assert buf[at + (k - at)] == data[k - at]; }
    }
  }

  // memmove of the elements from `off` to `len` to the front.
  method Move<T>(buf: array<T>, off: nat, len: nat)
    requires off <= len <= buf.Length
    modifies buf
    ensures buf[..len - off] == old(buf[off..len])
  {
    forall i | 0 <= i < len - off { buf[i] := buf[off + i]; }
  }
}
