/** The bounded ring buffer of one lane, and the reusable batch its jobs are popped into. */
module LaneQueues {
  import opened Basics
  import opened Jobs

  /** The slot `i` places after `head` in a ring of length `n`. */
  function Slot(head: nat, i: nat, n: nat): (r: nat)
    requires head < n && i <= n
    ensures r < n
  {
    if head + i < n then head + i else head + i - n
  }

  /** ... which is what the program's remainder computes. */
  lemma SlotIsRemainder(head: nat, i: nat, n: nat)
    requires head < n && i <= n
    ensures (head + i) % n == Slot(head, i, n)
  {
    if head + i >= n {
      assert head + i == n * 1 + (head + i - n);
      assert (head + i) / n == 1;
    }
  }

  /** One lap visits every slot once. */
  lemma SlotDistinct(head: nat, i: nat, j: nat, n: nat)
    requires head < n && i < n && j < n && i != j
    ensures Slot(head, i, n) != Slot(head, j, n)
  {
  }

  lemma SlotShift(head: nat, i: nat, n: nat)
    requires head < n && i < n
    ensures Slot(Slot(head, 1, n), i, n) == if i == n - 1 then head else Slot(head, i + 1, n)
  {
  }

  /** A slice with its own backing store: `len` of its `jobs.Length` places are in use. */
  class JobBatch {
    var jobs: array<Job>
    var len: nat

    ghost predicate Valid()
      reads this
    {
      len <= jobs.Length
    }

    ghost function Contents(): seq<Job>
      reads this, jobs
      requires Valid()
    {
      jobs[..len]
    }

    constructor (capacity: nat)
      ensures Valid() && fresh(jobs) && jobs.Length == capacity && Contents() == []
    {
      jobs := new Job[capacity](_ => ZERO_JOB);
      len := 0;
    }

    /** A pooled batch made ready for at least `minCapacity` jobs. */
    method Acquire(minCapacity: nat)
      requires Valid() && Contents() == []
      modifies this
      ensures Valid() && Contents() == [] && jobs.Length >= minCapacity
      ensures jobs == old(jobs) || fresh(jobs)
    {
      if jobs.Length < minCapacity {
        jobs := new Job[minCapacity](_ => ZERO_JOB);
        len := 0;
      }
    }

    /** Drops every reference before the batch goes back to the pool. */
    method Reset()
      requires Valid()
      modifies this`len, jobs
      ensures Valid() && Contents() == [] && jobs.Length == old(jobs.Length)
      ensures forall i :: 0 <= i < old(len) ==> jobs[i] == ZERO_JOB
      ensures forall i :: old(len) <= i < jobs.Length ==> jobs[i] == old(jobs[i])
    {
      for i := 0 to len
        invariant forall k :: 0 <= k < i ==> jobs[k] == ZERO_JOB
        invariant forall k :: i <= k < jobs.Length ==> jobs[k] == old(jobs[k])
      {
        jobs[i] := ZERO_JOB;
      }
      len := 0;
    }
  }

  lemma OneMore(d: seq<Job>, q: seq<Job>, i: nat, before: seq<Job>, after: seq<Job>)
    requires i < |q| && |d| + i < |before| && before[..|d| + i] == d + q[..i]
    requires after == before[|d| + i := q[i]]
    ensures after[..|d| + (i + 1)] == d + q[..i + 1]
    ensures q[i..][0] == q[i] && q[i..][1..] == q[i + 1..]
  {
    assert after[..|d| + (i + 1)] == before[..|d| + i] + [q[i]];
    assert q[..i + 1] == q[..i] + [q[i]];
  }

  class LaneQueue {
    const items: array<Job>
    var head: nat
    var tail: nat
    var size: nat

    ghost predicate Valid()
      reads this, items
    {
      && size <= items.Length
      && (items.Length > 0 ==> head < items.Length && tail == Slot(head, size, items.Length))
      // vacated slots keep no reference
      && (forall i :: size <= i < items.Length ==> items[Slot(head, i, items.Length)] == ZERO_JOB)
    }

    ghost function Contents(): (q: seq<Job>)
      reads this, items
      requires Valid()
      ensures |q| == size
      ensures forall i :: 0 <= i < size ==> q[i] == items[Slot(head, i, items.Length)]
    {
      seq(size, i requires 0 <= i < size && Valid() reads this, items => items[Slot(head, i, items.Length)])
    }

    constructor (capacity: nat)
      ensures Valid() && fresh(items) && items.Length == capacity && Contents() == []
    {
      items := new Job[capacity](_ => ZERO_JOB);
      head, tail, size := 0, 0, 0;
    }

    method Push(job: Job) returns (ok: bool)
      requires Valid()
      modifies this`tail, this`size, items
      ensures Valid()
      ensures ok == (|old(Contents())| < items.Length)
      ensures Contents() == if ok then old(Contents()) + [job] else old(Contents())
    {
      if size == items.Length {
        return false;
      }
      ghost var before := Contents();
      ghost var n := items.Length;
      items[tail] := job;
      tail := (tail + 1) % items.Length;
      size := size + 1;
      SlotIsRemainder(old(tail), 1, n);
      forall i | 0 <= i < n && i != size - 1 ensures items[Slot(head, i, n)] == old(items[Slot(head, i, n)]) {
        SlotDistinct(head, i, size - 1, n);
      }
      assert Contents() == before + [job];
      return true;
    }

    /** Stamps the job pushed last; the other jobs and the order do not change. */
    method StampNewestAccepted(acceptedAt: int, stampAcceptedAt: bool, trackQueueWait: bool)
      requires Valid()
      modifies items
      ensures Valid() && |Contents()| == |old(Contents())|
      ensures size == 0 ==> Contents() == old(Contents())
      ensures size > 0 ==>
        Contents() == old(Contents())[
          size - 1 := Stamped(old(Contents())[size - 1], acceptedAt, stampAcceptedAt, trackQueueWait)]
    {
      if size == 0 {
        return;
      }
      ghost var n := items.Length;
      var idx := (tail - 1 + items.Length) % items.Length;
      SlotIsRemainder(tail, n - 1, n);
      assert idx == Slot(head, size - 1, n);
      forall i | 0 <= i < n && i != size - 1 ensures Slot(head, i, n) != idx {
        SlotDistinct(head, i, size - 1, n);
      }
      if stampAcceptedAt {
        items[idx] := items[idx].(acceptedAt := acceptedAt);
      }
      if trackQueueWait {
        items[idx] := items[idx].(enqueuedAt := acceptedAt);
      }
    }

    /** A push that is stamped on success, as the enqueue section does it. */
    method PushStamped(job: Job, now: int, stampAcceptedAt: bool, trackQueueWait: bool) returns (ok: bool)
      requires Valid()
      modifies this`tail, this`size, items
      ensures Valid() && ok == (|old(Contents())| < items.Length)
      ensures Contents() == if ok then old(Contents()) + [Stamped(job, now, stampAcceptedAt, trackQueueWait)]
                            else old(Contents())
    {
      ok := Push(job);
      if ok && (stampAcceptedAt || trackQueueWait) {
        StampNewestAccepted(now, stampAcceptedAt, trackQueueWait);
      }
    }

    method Pop() returns (job: Job, ok: bool)
      requires Valid()
      modifies this`head, this`size, items
      ensures Valid()
      ensures ok == (old(Contents()) != [])
      ensures ok ==> job == old(Contents())[0] && Contents() == old(Contents())[1..]
      ensures !ok ==> job == ZERO_JOB && Contents() == old(Contents())
    {
      if size == 0 {
        return ZERO_JOB, false;
      }
      ghost var before := Contents();
      ghost var n := items.Length;
      job := items[head];
      ghost var head0 := head;
      items[head] := ZERO_JOB;
      head := (head + 1) % items.Length;
      size := size - 1;
      SlotIsRemainder(head0, 1, n);
      assert head == Slot(head0, 1, n);
      forall i | 0 <= i < n
        ensures items[Slot(head, i, n)] == if i == n - 1 then ZERO_JOB else old(items[Slot(head0, i + 1, n)])
      {
        SlotShift(head0, i, n);
        if i < n - 1 { SlotDistinct(head0, i + 1, 0, n); }
      }
      assert Contents() == before[1..];
      return job, true;
    }

    /** One turn of the `PopN` loop. */
    method PopInto(jobs: array<Job>, at: nat)
      requires Valid() && size > 0 && jobs != items && at < jobs.Length
      modifies this`head, this`size, items, jobs
      ensures Valid() && Contents() == old(Contents())[1..]
      ensures jobs[..] == old(jobs[..])[at := old(Contents())[0]]
    {
      var job, _ := Pop();
      jobs[at] := job;
      assert Contents() == old(Contents())[1..];
    }

    /** How many jobs `PopN` moves: the limit, clipped by what is there and by the room in `dst`. */
    static function Moved(limit: int, depth: nat, room: nat): nat {
      if limit <= 0 then 0 else Min(Min(limit, depth), room)
    }

    method PopN(limit: int, dst: JobBatch)
      requires Valid() && dst.Valid() && dst.jobs != items
      modifies this`head, this`size, items, dst`len, dst.jobs
      ensures Valid() && dst.Valid() && dst.jobs == old(dst.jobs)
      ensures var k := Moved(limit, |old(Contents())|, dst.jobs.Length - |old(dst.Contents())|);
              && k <= |old(Contents())|
              && dst.Contents() == old(dst.Contents()) + old(Contents())[..k]
              && Contents() == old(Contents())[k..]
    {
      if limit <= 0 || size == 0 {
        return;
      }
      var count := limit;
      if count > size {
        count := size;
      }
      var avail := dst.jobs.Length - dst.len;
      if count > avail {
        count := avail;
      }
      MoveFront(count, dst);
    }

    /** Moves the first `count` jobs to the end of `dst`, which has room for them. */
    method MoveFront(count: nat, dst: JobBatch)
      requires Valid() && dst.Valid() && dst.jobs != items && count <= size && dst.len + count <= dst.jobs.Length
      modifies this`head, this`size, items, dst`len, dst.jobs
      ensures Valid() && dst.Valid() && dst.jobs == old(dst.jobs)
      ensures dst.Contents() == old(dst.Contents()) + old(Contents())[..count]
      ensures Contents() == old(Contents())[count..]
    {
      var start := dst.len;
      ghost var q0, d0 := Contents(), dst.Contents();
      dst.len := start + count;
      var jobs := dst.jobs;
      for i := 0 to count
        invariant Valid()
        invariant dst.len == start + count && dst.jobs == jobs
        invariant Contents() == q0[i..]
        invariant jobs[..start + i] == d0 + q0[..i]
      {
        ghost var before := jobs[..];
        PopInto(jobs, start + i);
        OneMore(d0, q0, i, before, jobs[..]);
      }
    }

    predicate IsEmpty()
      reads this
    {
      size == 0
    }
  }

  function Stamped(job: Job, acceptedAt: int, stampAcceptedAt: bool, trackQueueWait: bool): Job {
    var a := if stampAcceptedAt then job.(acceptedAt := acceptedAt) else job;
    if trackQueueWait then a.(enqueuedAt := acceptedAt) else a
  }

  /** Each of the two times is set exactly where it is asked for, and the rest of the job stays. */
  lemma StampsExactly(job: Job, at: int, stampAcceptedAt: bool, trackQueueWait: bool)
    ensures var s := Stamped(job, at, stampAcceptedAt, trackQueueWait);
      && s == job.(acceptedAt := s.acceptedAt, enqueuedAt := s.enqueuedAt)
      && s.acceptedAt == (if stampAcceptedAt then at else job.acceptedAt)
      && s.enqueuedAt == (if trackQueueWait then at else job.enqueuedAt)
  {
  }
}
