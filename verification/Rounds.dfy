/** Round-robin service of calls that yield finitely often, and the stable sort it amounts to. */
module Rounds {

  // A queued call: who it is, how often it still yields, what it returns in the end.
  datatype Item = Item(id: nat, left: nat, result: int)

  // What a `done` callback is told.
  datatype Report = Report(id: nat, result: int)

  function Answer(i: Item): Report { Report(i.id, i.result) }

  // `wirecall_scheduler_run_ready` on values: serve the head; if it yields it goes to the back.
  function Serve(q: seq<Item>): seq<Report>
    decreases Weight(q)
  {
    if q == [] then []
    else if q[0].left == 0 then
      WeightCons(q);
      [Answer(q[0])] + Serve(q[1..])
    else
      WeightRequeue(q);
      Serve(q[1..] + [Again(q[0])])
  }

  function Again(i: Item): Item
    requires i.left > 0
  {
    i.(left := i.left - 1)
  }

  // How many resumes are left.
  function Weight(q: seq<Item>): nat {
    if q == [] then 0 else Weight(q[..|q| - 1]) + q[|q| - 1].left + 1
  }

  lemma {:induction false} WeightCons(q: seq<Item>)
    requires q != []
    ensures Weight(q) == q[0].left + 1 + Weight(q[1..])
  {
    if |q| > 1 {
      WeightCons(q[..|q| - 1]);
      assert q[1..][..|q| - 2] == q[..|q| - 1][1..];
    } else {
      assert q[..0] == [] && q[1..] == [];
    }
  }

  lemma WeightRequeue(q: seq<Item>)
    requires q != [] && q[0].left > 0
    ensures Weight(q[1..] + [Again(q[0])]) == Weight(q) - 1
  {
    WeightCons(q);
    assert (q[1..] + [Again(q[0])])[..|q| - 1] == q[1..];
  }

  // ---------- one round ----------

  // The answers of the calls that do not yield, and the others after their resume, in queue order.
  function Finished(q: seq<Item>): seq<Report> {
    if q == [] then []
    else (if q[0].left == 0 then [Answer(q[0])] else []) + Finished(q[1..])
  }

  function Resumed(q: seq<Item>): seq<Item> {
    if q == [] then []
    else (if q[0].left == 0 then [] else [Again(q[0])]) + Resumed(q[1..])
  }

  lemma ServeStep(q: seq<Item>)
    requires q != []
    ensures Serve(q) == if q[0].left == 0 then [Answer(q[0])] + Serve(q[1..]) else Serve(q[1..] + [Again(q[0])])
  {
  }

  lemma RoundStep(q: seq<Item>)
    requires q != []
    ensures q[0].left == 0 ==> Finished(q) == [Answer(q[0])] + Finished(q[1..]) && Resumed(q) == Resumed(q[1..])
    ensures q[0].left > 0 ==> Finished(q) == Finished(q[1..]) && Resumed(q) == [Again(q[0])] + Resumed(q[1..])
  {
  }

  lemma RoundEmpty()
    ensures Finished([]) == [] && Resumed([]) == []
  {
  }

  // Calls that have had their turn wait behind those that have not.
  lemma {:induction false} ServeRound(front: seq<Item>, back: seq<Item>)
    ensures Serve(front + back) == Finished(front) + Serve(back + Resumed(front))
    decreases |front|
  {
    hide Serve, Finished, Resumed, Answer, Again;
    if front == [] {
      RoundEmpty();
      assert front + back == back && back + Resumed(front) == back;
    } else {
      var q := front + back;
      assert q[1..] == front[1..] + back;
      ServeStep(q);
      RoundStep(front);
      if front[0].left == 0 {
        ServeRound(front[1..], back);
      } else {
        var turn := [Again(front[0])];
        ServeRound(front[1..], back + turn);
        assert q[1..] + turn == front[1..] + (back + turn);
        assert back + turn + Resumed(front[1..]) == back + (turn + Resumed(front[1..]));
      }
    }
  }

  lemma OneRound(q: seq<Item>)
    ensures Serve(q) == Finished(q) + Serve(Resumed(q))
  {
    hide Serve, Finished, Resumed;
    ServeRound(q, []);
    assert q + [] == q && [] + Resumed(q) == Resumed(q);
  }

  // ---------- the stable sort by yields ----------

  // The calls that yield y times, in submission order.
  function Bucket(q: seq<Item>, y: nat): seq<Report> {
    if q == [] then []
    else (if q[0].left == y then [Answer(q[0])] else []) + Bucket(q[1..], y)
  }

  // The buckets y, y + 1, ..., up to n - 1.
  function Buckets(q: seq<Item>, y: nat, n: nat): seq<Report>
    decreases n - y
  {
    if y >= n then [] else Bucket(q, y) + Buckets(q, y + 1, n)
  }

  lemma {:induction false} BucketResumed(q: seq<Item>, y: nat)
    ensures Bucket(Resumed(q), y) == Bucket(q, y + 1)
    ensures Bucket(q, 0) == Finished(q)
  {
    if q != [] {
      BucketResumed(q[1..], y);
      if q[0].left > 0 {
        assert Resumed(q) == [Again(q[0])] + Resumed(q[1..]);
        assert Resumed(q)[1..] == Resumed(q[1..]);
      } else {
        assert Resumed(q) == Resumed(q[1..]);
      }
    }
  }

  lemma {:induction false} BucketsResumed(q: seq<Item>, y: nat, n: nat)
    ensures Buckets(Resumed(q), y, n) == Buckets(q, y + 1, n + 1)
    decreases n - y
  {
    if y < n {
      BucketsResumed(q, y + 1, n);
      BucketResumed(q, y);
    }
  }

  predicate Below(q: seq<Item>, n: nat) {
    forall i :: 0 <= i < |q| ==> q[i].left < n
  }

  lemma {:induction false} ResumedBelow(q: seq<Item>, n: nat)
    requires Below(q, n + 1)
    ensures Below(Resumed(q), n)
  {
    if q != [] {
      assert Below(q[1..], n + 1);
      ResumedBelow(q[1..], n);
    }
  }

  lemma {:induction false} BucketsEmpty(y: nat, n: nat)
    ensures Buckets([], y, n) == []
    decreases n - y
  {
    if y < n { BucketsEmpty(y + 1, n); }
  }

  // The completion order is the stable sort of the submission order by number of yields.
  lemma {:induction false} ServeSorts(q: seq<Item>, n: nat)
    requires Below(q, n)
    ensures Serve(q) == Buckets(q, 0, n)
    decreases n
  {
    if q == [] {
      BucketsEmpty(0, n);
    } else {
      assert q[0].left < n;
      ResumedBelow(q, n - 1);
      ServeSorts(Resumed(q), n - 1);
      RoundSorts(q, n);
    }
  }

  // A round serves the first bucket and leaves the others one nearer.
  lemma RoundSorts(q: seq<Item>, n: nat)
    requires 0 < n && Serve(Resumed(q)) == Buckets(Resumed(q), 0, n - 1)
    ensures Serve(q) == Buckets(q, 0, n)
  {
    hide Serve, Finished, Resumed, Bucket, Buckets;
    OneRound(q);
    BucketsResumed(q, 0, n - 1);
    BucketResumed(q, 0);
    BucketsStep(q, 0, n);
  }

  lemma BucketsStep(q: seq<Item>, y: nat, n: nat)
    requires y < n
    ensures Buckets(q, y, n) == Bucket(q, y) + Buckets(q, y + 1, n)
  {
  }

  function Reports(q: seq<Item>): seq<Report> {
    if q == [] then [] else [Answer(q[0])] + Reports(q[1..])
  }

  // Each queued call is reported exactly once.
  lemma {:induction false} ServeOnce(q: seq<Item>)
    ensures multiset(Serve(q)) == multiset(Reports(q))
    decreases Weight(q)
  {
    if q != [] {
      if q[0].left == 0 {
        WeightCons(q);
        ServeOnce(q[1..]);
      } else {
        WeightRequeue(q);
        ServeOnce(q[1..] + [Again(q[0])]);
        ReportsSnoc(q[1..], Again(q[0]));
      }
    }
  }

  // What is reported of a queue, in some order: of each call its id and its result, and nothing else.
  lemma ServeReports(q: seq<Item>)
    ensures multiset(Serve(q)) == multiset(seq(|q|, i requires 0 <= i < |q| => Report(q[i].id, q[i].result)))
  {
    ServeOnce(q);
    ReportsAre(q);
  }

  lemma {:induction false} ReportsAre(q: seq<Item>)
    ensures Reports(q) == seq(|q|, i requires 0 <= i < |q| => Report(q[i].id, q[i].result))
  {
    if q != [] {
      ReportsAre(q[1..]);
      assert forall i :: 0 <= i < |q| - 1 ==> q[1..][i] == q[i + 1];
    }
  }

  lemma {:induction false} ReportsSnoc(q: seq<Item>, i: Item)
    ensures Reports(q + [i]) == Reports(q) + [Answer(i)]
  {
    if q == [] {
      assert q + [i] == [i] && [i][1..] == [];
    } else {
      ReportsSnoc(q[1..], i);
      assert (q + [i])[1..] == q[1..] + [i];
    }
  }

  // In a bucket, submission order; between buckets, fewer yields first.
  lemma {:induction false} Stable(q: seq<Item>, i: nat, j: nat, n: nat)
    requires i < |q| && j < |q| && Below(q, n)
    requires q[i].left < q[j].left || (q[i].left == q[j].left && i < j)
    ensures exists a, b :: 0 <= a < b < |Serve(q)| && Serve(q)[a] == Report(q[i].id, q[i].result) &&
                           Serve(q)[b] == Report(q[j].id, q[j].result)
    decreases n
  {
    hide Serve, Resumed, Finished;
    OneRound(q);
    var head, tail := Finished(q), Serve(Resumed(q));
    assert Serve(q) == head + tail;
    ResumedBelow(q, n - 1);
    if q[j].left == 0 {
      var a, b := FinishedPair(q, i, j);
      assert Serve(q)[a] == Answer(q[i]) && Serve(q)[b] == Answer(q[j]);
    } else if q[i].left == 0 {
      var a := FinishedAt(q, i);
      var j' := ResumedAt(q, j);
      var b := ServedAt(Resumed(q), j', n - 1);
      assert Serve(q)[a] == Answer(q[i]) && Serve(q)[|head| + b] == Answer(q[j]);
    } else {
      var i', j' := ResumedPair(q, i, j);
      Stable(Resumed(q), i', j', n - 1);
      var x, y := Resumed(q)[i'], Resumed(q)[j'];
      var a, b :| 0 <= a < b < |tail| && tail[a] == Report(x.id, x.result) && tail[b] == Report(y.id, y.result);
      assert (q[i].id, q[i].result) == (x.id, x.result) && (q[j].id, q[j].result) == (y.id, y.result);
      assert Serve(q)[|head| + a] == Answer(q[i]) && Serve(q)[|head| + b] == Answer(q[j]);
    }
  }

  lemma {:induction false} FinishedAt(q: seq<Item>, i: nat) returns (a: nat)
    requires i < |q| && q[i].left == 0
    ensures a < |Finished(q)| && Finished(q)[a] == Answer(q[i])
  {
    if i == 0 {
      a := 0;
    } else {
      a := FinishedAt(q[1..], i - 1);
      if q[0].left == 0 { a := a + 1; }
    }
  }

  lemma {:induction false} FinishedPair(q: seq<Item>, i: nat, j: nat) returns (a: nat, b: nat)
    requires i < j < |q| && q[i].left == 0 && q[j].left == 0
    ensures a < b < |Finished(q)| && Finished(q)[a] == Answer(q[i]) && Finished(q)[b] == Answer(q[j])
  {
    if i == 0 {
      b := FinishedAt(q[1..], j - 1);
      a, b := 0, b + 1;
    } else {
      a, b := FinishedPair(q[1..], i - 1, j - 1);
      if q[0].left == 0 { a, b := a + 1, b + 1; }
    }
  }

  lemma {:induction false} ResumedAt(q: seq<Item>, i: nat) returns (a: nat)
    requires i < |q| && q[i].left > 0
    ensures a < |Resumed(q)| && Resumed(q)[a] == Again(q[i])
  {
    if i == 0 {
      a := 0;
    } else {
      a := ResumedAt(q[1..], i - 1);
      if q[0].left > 0 { a := a + 1; }
    }
  }

  lemma {:induction false} ResumedPair(q: seq<Item>, i: nat, j: nat) returns (a: nat, b: nat)
    requires i < |q| && j < |q| && i != j && q[i].left > 0 && q[j].left > 0
    ensures a < |Resumed(q)| && Resumed(q)[a] == Again(q[i])
    ensures b < |Resumed(q)| && Resumed(q)[b] == Again(q[j])
    ensures a != b && (a < b <==> i < j)
  {
    if i == 0 {
      b := ResumedAt(q[1..], j - 1);
      a, b := 0, b + 1;
    } else if j == 0 {
      a := ResumedAt(q[1..], i - 1);
      a, b := a + 1, 0;
    } else {
      a, b := ResumedPair(q[1..], i - 1, j - 1);
      if q[0].left > 0 { a, b := a + 1, b + 1; }
    }
  }

  lemma {:induction false} ServedAt(q: seq<Item>, i: nat, n: nat) returns (a: nat)
    requires i < |q| && Below(q, n)
    ensures a < |Serve(q)| && Serve(q)[a] == Answer(q[i])
    decreases n
  {
    hide Serve, Resumed, Finished;
    OneRound(q);
    if q[i].left == 0 {
      a := FinishedAt(q, i);
    } else {
      ResumedBelow(q, n - 1);
      var k := ResumedAt(q, i);
      a := ServedAt(Resumed(q), k, n - 1);
      a := |Finished(q)| + a;
    }
  }
}
