/** The doubly linked job lists of the spooler and of the reader-writer lock example. */
module JobLists {
  import opened Sequences

  class Job<T> {
    const entry: T
    var next: Job?<T>
    var prev: Job?<T>

    constructor (entry: T)
      ensures this.entry == entry && next == null && prev == null
    {
      this.entry, next, prev := entry, null, null;
    }
  }

  ghost predicate Distinct<T>(jobs: seq<Job<T>>) {
    forall i, j :: 0 <= i < j < |jobs| ==> jobs[i] != jobs[j]
  }

  ghost predicate LinkedAt<T>(jobs: seq<Job<T>>, i: nat)
    requires i < |jobs|
    reads jobs
  {
    && jobs[i].next == (if i + 1 < |jobs| then jobs[i + 1] else null)
    && jobs[i].prev == (if i > 0 then jobs[i - 1] else null)
  }

  /** `head` and `tail` are the ends of a doubly linked list of exactly these jobs, in this order. */
  ghost predicate Linked<T>(jobs: seq<Job<T>>, head: Job?<T>, tail: Job?<T>)
    reads jobs
  {
    && Distinct(jobs)
    && head == (if jobs == [] then null else jobs[0])
    && tail == (if jobs == [] then null else jobs[|jobs| - 1])
    && forall i :: 0 <= i < |jobs| ==> LinkedAt(jobs, i)
  }

  ghost function Entries<T>(jobs: seq<Job<T>>): (r: seq<T>)
    ensures |r| == |jobs| && forall i :: 0 <= i < |r| ==> r[i] == jobs[i].entry
  {
    seq(|jobs|, i requires 0 <= i < |jobs| => jobs[i].entry)
  }

  // ---------- the queue of rwlock.c ----------

  class Queue<T(==)> {
    var head: Job?<T>
    var tail: Job?<T>
    ghost var jobs: seq<Job<T>>

    ghost predicate Valid()
      reads this, jobs
    {
      Linked(jobs, head, tail)
    }

    /** `lockErr` is what the initialisation of the lock returns; it is passed on, 0 for success. */
    method Init(lockErr: int) returns (err: int)
      modifies this
      ensures Valid() && jobs == [] && err == lockErr
    {
      head, tail, jobs := null, null, [];
      if lockErr != 0 {
        return lockErr;
      }
      return 0;
    }

    method Insert(jp: Job<T>)
      requires Valid() && jp !in jobs
      modifies this, jp, jobs
      ensures Valid() && jobs == [jp] + old(jobs)
    {
      jp.next := head;
      jp.prev := null;
      if head != null {
        head.prev := jp;
      } else {
        tail := jp;
      }
      head := jp;
      ghost var was := jobs;
      jobs := [jp] + jobs;
      forall i | 0 <= i < |jobs| ensures LinkedAt(jobs, i) {
        if i > 0 { assert old(LinkedAt(was, i - 1)); }
      }
    }

    method Append(jp: Job<T>)
      requires Valid() && jp !in jobs
      modifies this, jp, jobs
      ensures Valid() && jobs == old(jobs) + [jp]
    {
      jp.next := null;
      jp.prev := tail;
      if tail != null {
        tail.next := jp;
      } else {
        head := jp;
      }
      tail := jp;
      ghost var was := jobs;
      jobs := jobs + [jp];
      forall i | 0 <= i < |jobs| ensures LinkedAt(jobs, i) {
        if i < |was| { assert old(LinkedAt(was, i)); }
      }
    }

    method Remove(jp: Job<T>, ghost k: nat)
      requires Valid() && k < |jobs| && jobs[k] == jp
      modifies this, jobs
      ensures Valid() && jobs == Without(old(jobs), k)
    {
      assert LinkedAt(jobs, k);
      if jp == head {
        head := jp.next;
        if tail == jp {
          tail := null;
        } else {
          jp.next.prev := jp.prev;
        }
      } else if jp == tail {
        tail := jp.prev;
        jp.prev.next := jp.next;
      } else {
        jp.prev.next := jp.next;
        jp.next.prev := jp.prev;
      }
      ghost var was := jobs;
      jobs := Without(jobs, k);
      forall i | 0 <= i < |jobs| ensures LinkedAt(jobs, i) {
        assert old(LinkedAt(was, if i < k then i else i + 1));
      }
    }

    /** The first job with this entry. Without the lock nothing is looked for. */
    method Find(id: T, locked: bool) returns (jp: Job?<T>)
      requires Valid()
      ensures !locked ==> jp == null
      ensures jp == null && locked ==> forall i :: 0 <= i < |jobs| ==> jobs[i].entry != id
      ensures jp != null ==>
                exists i :: 0 <= i < |jobs| && jobs[i] == jp && jp.entry == id &&
                  forall j :: 0 <= j < i ==> jobs[j].entry != id
    {
      if !locked {
        return null;
      }
      jp := head;
      ghost var i := 0;
      while jp != null && jp.entry != id
        invariant 0 <= i <= |jobs| && jp == (if i < |jobs| then jobs[i] else null)
        invariant forall j :: 0 <= j < i ==> jobs[j].entry != id
        decreases |jobs| - i
      {
        assert LinkedAt(jobs, i);
        jp := jp.next;
        i := i + 1;
      }
    }
  }
}
