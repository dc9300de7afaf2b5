/** Jobs, lanes and the arithmetic of draining them.

    A job is a value; `id` is its identity (the order of acceptance), which the
    program carries implicitly as the job's position in memory.  Everything the
    scheduler conserves is stated as a count of the jobs that match some `Match`. */
module Jobs {
  import opened Basics

  datatype Job = Job(id: nat, keyHash: nat, lane: nat, acceptedAt: int, enqueuedAt: int)

  const ZERO_JOB := Job(0, 0, 0, 0, 0)

  /** Which jobs a count is about. */
  datatype Match = Every | ById(id: nat) | ByLane(lane: nat) | LanesBelow(bound: nat)

  predicate Hits(m: Match, j: Job) {
    match m
    case Every => true
    case ById(id) => j.id == id
    case ByLane(lane) => j.lane == lane
    case LanesBelow(bound) => j.lane < bound
  }

  function Count(m: Match, js: seq<Job>): (n: nat) {
    if js == [] then 0 else (if Hits(m, js[0]) then 1 else 0) + Count(m, js[1..])
  }

  lemma {:induction false} CountConcat(m: Match, a: seq<Job>, b: seq<Job>)
    ensures Count(m, a + b) == Count(m, a) + Count(m, b)
  {
    if a == [] {
      assert a + b == b;
    } else {
      CountConcat(m, a[1..], b);
      assert (a + b)[1..] == a[1..] + b;
    }
  }

  lemma {:induction false} CountEvery(js: seq<Job>)
    ensures Count(Every, js) == |js|
  {
    if js != [] {
      CountEvery(js[1..]);
    }
  }

  predicate InLanes(js: seq<Job>, n: nat) {
    forall i :: 0 <= i < |js| ==> js[i].lane < n
  }

  lemma {:induction false} CountLanes(js: seq<Job>, n: nat)
    ensures Count(LanesBelow(n + 1), js) == Count(LanesBelow(n), js) + Count(ByLane(n), js)
    ensures Count(LanesBelow(0), js) == 0
    ensures InLanes(js, n) ==> Count(LanesBelow(n), js) == |js|
  {
    if js != [] {
      CountLanes(js[1..], n);
      assert InLanes(js, n) ==> InLanes(js[1..], n);
    }
  }

  /** The jobs one pass removes from a lane, and the ones it leaves. */
  function Taken(lane: seq<Job>, quota: nat): seq<Job> {
    lane[..Min(quota, |lane|)]
  }

  function Left(lane: seq<Job>, quota: nat): seq<Job> {
    lane[Min(quota, |lane|)..]
  }

  /** The batch one pass collects from all lanes, in lane order. */
  function Batch(lanes: seq<seq<Job>>, quotas: seq<nat>): seq<Job>
    requires |lanes| == |quotas|
  {
    if lanes == [] then []
    else
      var n := |lanes| - 1;
      Batch(lanes[..n], quotas[..n]) + Taken(lanes[n], quotas[n])
  }

  function Remainder(lanes: seq<seq<Job>>, quotas: seq<nat>): (rest: seq<seq<Job>>)
    requires |lanes| == |quotas|
    ensures |rest| == |lanes|
    ensures forall i :: 0 <= i < |lanes| ==> rest[i] == Left(lanes[i], quotas[i])
  {
    seq(|lanes|, i requires 0 <= i < |lanes| => Left(lanes[i], quotas[i]))
  }

  predicate HasWork(lanes: seq<seq<Job>>) {
    exists i :: 0 <= i < |lanes| && lanes[i] != []
  }

  /** Jobs matching `m` over all the lanes of a shard. */
  function Depth(m: Match, lanes: seq<seq<Job>>): nat {
    if lanes == [] then 0
    else Depth(m, lanes[..|lanes| - 1]) + Count(m, lanes[|lanes| - 1])
  }

  lemma {:induction false} DepthUpdate(m: Match, lanes: seq<seq<Job>>, i: nat, lane: seq<Job>)
    requires i < |lanes|
    ensures Depth(m, lanes[i := lane]) == Depth(m, lanes) - Count(m, lanes[i]) + Count(m, lane)
  {
    var n := |lanes| - 1;
    if i == n {
      assert lanes[i := lane][..n] == lanes[..n];
    } else {
      DepthUpdate(m, lanes[..n], i, lane);
      assert lanes[i := lane][..n] == lanes[..n][i := lane];
    }
  }

  /** A pass neither creates nor destroys a job. */
  lemma {:induction false} PassConserves(m: Match, lanes: seq<seq<Job>>, quotas: seq<nat>)
    requires |lanes| == |quotas|
    ensures Depth(m, lanes) == Count(m, Batch(lanes, quotas)) + Depth(m, Remainder(lanes, quotas))
  {
    if lanes != [] {
      var n := |lanes| - 1;
      PassConserves(m, lanes[..n], quotas[..n]);
      assert Remainder(lanes, quotas)[..n] == Remainder(lanes[..n], quotas[..n]);
      CountConcat(m, Batch(lanes[..n], quotas[..n]), Taken(lanes[n], quotas[n]));
      CountConcat(m, Taken(lanes[n], quotas[n]), Left(lanes[n], quotas[n]));
      assert Taken(lanes[n], quotas[n]) + Left(lanes[n], quotas[n]) == lanes[n];
    }
  }

  /** A batch holds the front of each lane, as much as its quota allows, lane after lane. */
  lemma {:induction false} BatchInLaneOrder(a: seq<seq<Job>>, b: seq<seq<Job>>, q: seq<nat>, r: seq<nat>)
    requires |a| == |q| && |b| == |r|
    ensures Batch(a + b, q + r) == Batch(a, q) + Batch(b, r)
    ensures |b| == 1 ==> Batch(b, r) == if r[0] < |b[0]| then b[0][..r[0]] else b[0]
    decreases |b|
  {
    if b == [] {
      assert a + b == a && q + r == q;
    } else {
      var n := |b| - 1;
      assert (a + b)[..|a| + n] == a + b[..n] && (q + r)[..|a| + n] == q + r[..n];
      BatchInLaneOrder(a, b[..n], q, r[..n]);
      assert |b| == 1 ==> b[..0] == [] && r[..0] == [];
    }
  }

  /** An empty shard is one with no jobs, and a pass over it collects nothing. */
  lemma {:induction false} NoWork(lanes: seq<seq<Job>>)
    ensures HasWork(lanes) <==> Depth(Every, lanes) > 0
  {
    if lanes != [] {
      var n := |lanes| - 1;
      NoWork(lanes[..n]);
      CountEvery(lanes[n]);
      if HasWork(lanes[..n]) {
        var i :| 0 <= i < n && lanes[..n][i] != [];
        assert lanes[i] != [];
      }
      if HasWork(lanes) {
        var i :| 0 <= i <= n && lanes[i] != [];
        assert i < n ==> lanes[..n][i] != [];
      }
    }
  }

  lemma {:induction false} BatchInLanes(lanes: seq<seq<Job>>, quotas: seq<nat>, n: nat)
    requires |lanes| == |quotas|
    requires forall i :: 0 <= i < |lanes| ==> InLanes(lanes[i], n)
    ensures InLanes(Batch(lanes, quotas), n)
  {
    if lanes != [] {
      BatchInLanes(lanes[..|lanes| - 1], quotas[..|lanes| - 1], n);
    }
  }
}
