/** One shard in memory: its lanes, its ready flag, and the two critical sections that
    change them.  Both are proved to do what the protocol's steps say. */
module ShardQueues {
  import opened Jobs
  import opened LaneQueues
  import opened Protocol

  function SumOf(quotas: seq<nat>): nat {
    if quotas == [] then 0 else SumOf(quotas[..|quotas| - 1]) + quotas[|quotas| - 1]
  }

  class ShardQueue {
    var ready: bool
    const lanes: seq<LaneQueue>
    ghost const footprint: set<object>

    ghost predicate Valid()
      reads footprint
    {
      && this !in footprint
      && (forall i :: 0 <= i < |lanes| ==> lanes[i] in footprint && lanes[i].items in footprint && lanes[i].Valid())
      && (forall i, j :: 0 <= i < j < |lanes| ==> lanes[i] != lanes[j] && lanes[i].items != lanes[j].items)
    }

    ghost function View(): (v: seq<seq<Job>>)
      reads footprint
      requires Valid()
      ensures |v| == |lanes|
      ensures forall i :: 0 <= i < |lanes| ==> v[i] == lanes[i].Contents()
    {
      seq(|lanes|, i requires 0 <= i < |lanes| && Valid() reads footprint => lanes[i].Contents())
    }

    constructor (laneCount: nat, queueSizePerLane: nat)
      ensures Valid() && !ready && View() == seq(laneCount, i => [])
      ensures forall i :: 0 <= i < laneCount ==> lanes[i].items.Length == queueSizePerLane
    {
      var ls: seq<LaneQueue> := [];
      ghost var objects: set<object> := {};
      for n := 0 to laneCount
        invariant |ls| == n && forall o :: o in objects ==> o is LaneQueue || o is array<Job>
        invariant forall i :: 0 <= i < n ==>
          && ls[i] in objects && ls[i].items in objects && ls[i].Valid()
          && ls[i].Contents() == [] && ls[i].items.Length == queueSizePerLane
        invariant forall i, j :: 0 <= i < j < n ==> ls[i] != ls[j] && ls[i].items != ls[j].items
      {
        var q := new LaneQueue(queueSizePerLane);
        ls := ls + [q];
        objects := objects + {q, q.items};
      }
      ready := false;
      lanes := ls;
      footprint := objects;
    }

    method HasWorkLocked() returns (hasWork: bool)
      requires Valid()
      ensures hasWork == HasWork(View())
    {
      for i := 0 to |lanes|
        invariant forall k :: 0 <= k < i ==> View()[k] == []
      {
        if !lanes[i].IsEmpty() {
          assert View()[i] != [];
          return true;
        }
      }
      return false;
    }

    method TotalDepthLocked() returns (total: nat)
      requires Valid()
      ensures total == Depth(Every, View())
    {
      total := 0;
      assert View()[..0] == [];
      for i := 0 to |lanes|
        invariant total == Depth(Every, View()[..i])
      {
        CountEvery(lanes[i].Contents());
        assert View()[..i + 1][..i] == View()[..i];
        total := total + lanes[i].size;
      }
      assert View()[..|lanes|] == View();
    }

    /** The critical section of an enqueue: what `Push` does to this shard in the protocol.  A lane
        that does not exist is refused like a full one. */
    method EnqueueIntoShard(job: Job, now: int, stampAcceptedAt: bool, trackQueueWait: bool)
      returns (becameReady: bool, ok: bool)
      requires Valid()
      modifies this`ready, footprint
      ensures Valid()
      ensures ok <==> job.lane < |lanes| && |old(View())[job.lane]| < lanes[job.lane].items.Length
      ensures ok ==> ready && becameReady == !old(ready)
      ensures ok ==> View() == old(View())[job.lane :=
                                 old(View())[job.lane] + [Stamped(job, now, stampAcceptedAt, trackQueueWait)]]
      ensures !ok ==> ready == old(ready) && !becameReady && View() == old(View())
    {
      if job.lane >= |lanes| {
        return false, false;
      }
      ghost var before := View();
      ok := lanes[job.lane].PushStamped(job, now, stampAcceptedAt, trackQueueWait);
      assert forall k :: 0 <= k < |lanes| && k != job.lane ==> lanes[k].Contents() == before[k];
      if !ok {
        return false, false;
      }
      becameReady := !ready;
      ready := true;
    }

    lemma LaneApart(i: nat, k: nat)
      requires Valid() && i < |lanes| && k < |lanes| && i != k
      ensures lanes[k] != lanes[i] && lanes[k].items != lanes[i].items
    {
    }

    /** A lane whose objects nobody wrote to is as it was. */
    twostate lemma LaneKeeps(k: nat)
      requires old(Valid()) && k < |lanes| && unchanged(lanes[k], lanes[k].items)
      ensures lanes[k].Valid() && lanes[k].Contents() == old(lanes[k].Contents())
    {
    }

    /** Pops one lane into the batch; no other lane notices. */
    method PopLane(i: nat, quota: nat, batch: JobBatch)
      requires Valid() && i < |lanes|
      requires batch.Valid() && batch !in footprint && batch.jobs !in footprint
      requires batch.jobs.Length - batch.len >= quota
      modifies lanes[i], lanes[i].items, batch`len, batch.jobs
      ensures Valid() && batch.Valid() && batch.jobs == old(batch.jobs)
      ensures lanes[i].Contents() == Left(old(lanes[i].Contents()), quota)
      ensures forall k :: 0 <= k < |lanes| && k != i ==> lanes[k].Contents() == old(lanes[k].Contents())
      ensures batch.Contents() == old(batch.Contents()) + Taken(old(lanes[i].Contents()), quota)
      ensures batch.len <= old(batch.len) + quota
    {
      forall k | 0 <= k < |lanes| && k != i ensures lanes[k] != lanes[i] && lanes[k].items != lanes[i].items {
        LaneApart(i, k);
      }
      lanes[i].PopN(quota, batch);
      forall k | 0 <= k < |lanes| && k != i
        ensures lanes[k].Valid() && lanes[k].Contents() == old(lanes[k].Contents())
      {
        LaneKeeps(k);
      }
    }

    /** Lane by lane; the batch has room for every quota, so `PopN` is never clipped by it. */
    method PopLanes(quotas: seq<nat>, batch: JobBatch)
      requires Valid() && |quotas| == |lanes|
      requires batch.Valid() && batch.Contents() == [] && batch !in footprint && batch.jobs !in footprint
      requires batch.jobs.Length >= SumOf(quotas)
      modifies footprint, batch`len, batch.jobs
      ensures Valid() && batch.Valid() && batch.jobs == old(batch.jobs)
      ensures batch.Contents() == Batch(old(View()), quotas)
      ensures View() == Remainder(old(View()), quotas)
    {
      ghost var before := View();
      var i := 0;
      while i < |lanes|
        invariant i <= |lanes| && Valid() && batch.Valid() && batch.jobs == old(batch.jobs)
        invariant batch.len <= SumOf(quotas[..i])
        invariant batch.Contents() == Batch(before[..i], quotas[..i])
        invariant forall k :: 0 <= k < i ==> lanes[k].Contents() == Left(before[k], quotas[k])
        invariant forall k :: i <= k < |lanes| ==> lanes[k].Contents() == before[k]
      {
        RoomForQuota(quotas, i);
        BatchNext(before, quotas, i);
        PopLane(i, quotas[i], batch);
        i := i + 1;
      }
      assert before[..|lanes|] == before && quotas[..|lanes|] == quotas;
      assert View() == Remainder(before, quotas);
    }

    static method TotalQuota(quotas: seq<nat>) returns (total: nat)
      ensures total == SumOf(quotas)
    {
      total := 0;
      for i := 0 to |quotas|
        invariant total == SumOf(quotas[..i])
      {
        assert quotas[..i + 1][..i] == quotas[..i];
        total := total + quotas[i];
      }
      assert quotas[..|quotas|] == quotas;
    }

    /** The critical section of a pass: what `Pop` does to this shard in the protocol. */
    method CollectBatch(quotas: seq<nat>, batch: JobBatch) returns (hasMore: bool)
      requires Valid() && |quotas| == |lanes|
      requires batch.Valid() && batch.Contents() == [] && batch !in footprint && batch.jobs !in footprint
      modifies this`ready, footprint, batch, batch.jobs
      ensures Valid() && batch.Valid()
      ensures batch.Contents() == Batch(old(View()), quotas)
      ensures View() == Remainder(old(View()), quotas)
      ensures hasMore == HasWork(View()) && ready == (old(ready) && hasMore)
    {
      ghost var before := View();
      var totalQuota := TotalQuota(quotas);
      batch.Acquire(totalQuota);
      assert View() == before;
      PopLanes(quotas, batch);
      hasMore := UpdateReady();
    }

    /** The end of a pass: `ready` goes when nothing is left. */
    method UpdateReady() returns (hasMore: bool)
      requires Valid()
      modifies this`ready
      ensures Valid() && View() == old(View())
      ensures hasMore == HasWork(View()) && ready == (old(ready) && hasMore)
    {
      hasMore := HasWorkLocked();
      if !hasMore {
        ready := false;
      }
    }
  }

  lemma BatchNext(before: seq<seq<Job>>, quotas: seq<nat>, i: nat)
    requires |before| == |quotas| && i < |before|
    ensures Batch(before[..i + 1], quotas[..i + 1]) == Batch(before[..i], quotas[..i]) + Taken(before[i], quotas[i])
    ensures SumOf(quotas[..i + 1]) == SumOf(quotas[..i]) + quotas[i]
  {
    assert before[..i + 1][..i] == before[..i] && quotas[..i + 1][..i] == quotas[..i];
  }

  lemma {:induction false} RoomForQuota(quotas: seq<nat>, i: nat)
    requires i < |quotas|
    ensures SumOf(quotas[..i]) + quotas[i] <= SumOf(quotas)
    decreases |quotas|
  {
    var n := |quotas| - 1;
    if i == n {
    } else {
      RoomForQuota(quotas[..n], i);
      assert quotas[..n][..i] == quotas[..i];
    }
  }

  /** A queue object stands for a protocol shard when their lanes and flags agree and each
      ring has the configured capacity. */
  ghost predicate Represents(q: ShardQueue, sh: Shard, capacity: nat)
    reads q, q.footprint
    requires q.Valid()
  {
    && q.ready == sh.ready && q.View() == sh.lanes
    && forall i :: 0 <= i < |q.lanes| ==> q.lanes[i].items.Length == capacity
  }

  /** The pass in memory and the pass of the protocol keep representing each other. */
  method PassRefines(q: ShardQueue, batch: JobBatch, st: State, step: Step) returns (hasMore: bool)
    requires q.Valid() && Shape(st) && Enabled(st, step) && step.op.Pop?
    requires Represents(q, st.shards[st.threads[step.t].shard], st.cfg.capacity)
    requires batch.Valid() && batch.Contents() == [] && batch !in q.footprint && batch.jobs !in q.footprint
    modifies q`ready, q.footprint, batch, batch.jobs
    ensures q.Valid() && batch.Valid()
    ensures Represents(q, Next(st, step).shards[st.threads[step.t].shard], st.cfg.capacity)
    ensures Next(st, step).threads[step.t] == Popped(st.threads[step.t].shard, batch.Contents(), hasMore)
  {
    assert ShardShape(st.cfg, st.shards[st.threads[step.t].shard]);
    hasMore := q.CollectBatch(step.op.quotas, batch);
  }

  /** The enqueue in memory and the push of the protocol keep representing each other. */
  method EnqueueRefines(q: ShardQueue, job: Job, now: int, stampAcceptedAt: bool, trackQueueWait: bool,
                        st: State, step: Step)
    returns (becameReady: bool, ok: bool)
    requires q.Valid() && Shape(st) && Enabled(st, step)
    requires step.op == Push(Stamped(job, now, stampAcceptedAt, trackQueueWait))
    requires Represents(q, st.shards[RouteShard(job.keyHash, st.cfg.shards)], st.cfg.capacity)
    modifies q`ready, q.footprint
    ensures q.Valid()
    ensures Represents(q, Next(st, step).shards[RouteShard(job.keyHash, st.cfg.shards)], st.cfg.capacity)
    ensures Next(st, step).threads[step.t]
         == if ok then Accepted(st.threads[step.t].kind, RouteShard(job.keyHash, st.cfg.shards), job.lane, becameReady)
            else Rejecting(job.lane)
  {
    assert PcShape(st.cfg, st.threads[step.t]);
    assert ShardShape(st.cfg, st.shards[RouteShard(job.keyHash, st.cfg.shards)]);
    becameReady, ok := q.EnqueueIntoShard(job, now, stampAcceptedAt, trackQueueWait);
  }
}
