/**
 The thread pool's job queue: jobs are linked from the front to the rear through
 their `prev` pointers. Push and pull run under the queue's mutex.
 */
module JobQueue {

  class Job {
    const id: nat
    var prev: Job?

    constructor (id: nat)
      ensures this.id == id
    {
      this.id := id;
    }
  }

  class Queue {
    var front: Job?
    var rear: Job?
    var len: nat
    ghost var jobs: seq<Job>

    /** From the front, job i leads to job i + 1. */
    ghost predicate LinkedAt(i: nat)
      requires i < |jobs|
      reads this`jobs, jobs
    {
      jobs[i].prev == if i + 1 < |jobs| then jobs[i + 1] else null
    }

    /** The chain from front to rear has len different jobs. */
    ghost predicate Valid()
      reads this, jobs
    {
      && len == |jobs|
      && (forall i, j :: 0 <= i < j < |jobs| ==> jobs[i] != jobs[j])
      && (forall i :: 0 <= i < |jobs| ==> LinkedAt(i))
      && (if jobs == [] then front == null && rear == null else front == jobs[0] && rear == jobs[|jobs| - 1])
    }

    constructor ()
      ensures Valid() && jobs == []
    {
      front, rear, len, jobs := null, null, 0, [];
    }

    /** The job goes to the rear. The semaphore is posted in any case. */
    method Push(job: Job)
      requires Valid() && job !in jobs
      modifies this, jobs, job
      ensures Valid() && jobs == old(jobs) + [job]
    {
      job.prev := null;
      if len == 0 {
        front := job;
        rear := job;
      } else {
        assert LinkedAt(|jobs| - 1);
        rear.prev := job;
        rear := job;
      }
      len := len + 1;
      ghost var was := jobs;
      jobs := jobs + [job];
      forall i | 0 <= i < |jobs| ensures LinkedAt(i) {
        assert i < |was| - 1 ==> was[i].prev == was[i + 1] by {
          if i < |was| - 1 { assert old(LinkedAt(i)); }
        }
      }
    }

    /** The job at the front is taken; the semaphore must be posted again exactly if jobs remain. */
    method Pull() returns (job: Job?, post: bool)
      requires Valid()
      modifies this
      ensures Valid()
      ensures old(jobs) == [] ==> job == null && jobs == [] && !post
      ensures old(jobs) != [] ==> job == old(jobs)[0] && jobs == old(jobs)[1..]
      ensures post <==> jobs != []
    {
      job := front;
      post := false;
      if jobs != [] { assert LinkedAt(0); }
      if len == 1 {
        front := null;
        rear := null;
        len := 0;
      } else if len != 0 {
        front := job.prev;
        len := len - 1;
        post := true;
      }
      ghost var was := jobs;
      jobs := if jobs == [] then [] else jobs[1..];
      forall i | 0 <= i < |jobs| ensures LinkedAt(i) {
        assert old(LinkedAt(i + 1));
      }
    }

    /** Clearing takes and frees every job. */
    method Clear() returns (ghost discarded: seq<Job>)
      requires Valid()
      modifies this
      ensures Valid() && jobs == [] && discarded == old(jobs)
    {
      discarded := [];
      while len != 0
        invariant Valid() && discarded + jobs == old(jobs)
        decreases len
      {
        var job, _ := Pull();
        discarded := discarded + [job];
      }
      front := null;
      rear := null;
      len := 0;
    }
  }
}
