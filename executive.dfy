/**
 * The state of the per-processor dynamic executive: per-CTA ready and
 * waiting queues of thread contexts, the warp record that groups threads at
 * one hyperblock entry point, and the exit codes that translated code reports
 * to the scheduler.
 */
module Executive {
  import opened Wrappers

  /** Handle of a hyperblock, assigned by the partitioning pass. */
  type HyperblockId = nat

  /** Key of a cooperative thread array (CTA) in the executive's queues. */
  type CtaId = nat

  /** Handle of the translated kernel an executive runs. */
  datatype KernelHandle = KernelHandle(id: nat)

  /**
   * A thread context: which thread of its CTA it is and the hyperblock it
   * resumes at. The rest of the context belongs to the translation layer.
   */
  datatype ThreadContext = ThreadContext(tid: nat, entryId: HyperblockId)

  /** First-in first-out queue of contexts. */
  type ThreadContextQueue = seq<ThreadContext>

  /** Maps a CTA to its queue of contexts. */
  type CtaThreadQueue = map<CtaId, ThreadContextQueue>

  /** Why a thread returned from translated code to the scheduler. */
  datatype ThreadExitCode =
    | Fallthrough
    | Branch
    | TailCall
    | Call
    | Barrier
    | Exit
    | ExitOther
    | Invalid

  /** The integer each exit code is represented by. */
  function ExitCodeValue(c: ThreadExitCode): (v: nat)
    ensures v <= 8 && v != 2
    ensures (v == 8) == (c == Invalid)
  {
    match c
    case Fallthrough => 0
    case Branch => 1
    case TailCall => 3
    case Call => 4
    case Barrier => 5
    case Exit => 6
    case ExitOther => 7
    case Invalid => 8
  }

  /**
   * The exit code an integer denotes, None for an integer that is none of the
   * enumerators (2 among them).
   */
  function ExitCodeFromValue(v: int): (r: Option<ThreadExitCode>)
    ensures r.Some? <==> 0 <= v <= 8 && v != 2
    ensures r.Some? ==> ExitCodeValue(r.value) == v
  {
    if v == 0 then Some(Fallthrough)
    else if v == 1 then Some(Branch)
    else if v == 3 then Some(TailCall)
    else if v == 4 then Some(Call)
    else if v == 5 then Some(Barrier)
    else if v == 6 then Some(Exit)
    else if v == 7 then Some(ExitOther)
    else if v == 8 then Some(Invalid)
    else None
  }

  /** Decoding the value of an exit code gives that exit code back. */
  lemma ExitCodeRoundTrip(c: ThreadExitCode)
    ensures ExitCodeFromValue(ExitCodeValue(c)) == Some(c)
  {
  }

  /** Distinct exit codes have distinct values. */
  lemma ExitCodeValueInjective(a: ThreadExitCode, b: ThreadExitCode)
    ensures ExitCodeValue(a) == ExitCodeValue(b) ==> a == b
  {
  }

  /**
   * The invalid marker is the enumerator right after the last real code, and
   * no code is represented by 2.
   */
  lemma InvalidFollowsExitOther()
    ensures ExitCodeValue(Invalid) == ExitCodeValue(ExitOther) + 1
    ensures ExitCodeFromValue(2) == None
  {
  }

  /** Reference to the PTX kernel a launch was translated from. */
  datatype PtxKernelRef = PtxKernelRef(id: nat)

  /** Per-launch description of the kernel's memory needs and warp width. */
  datatype Metadata = Metadata(
    sharedSize: nat,
    localSize: nat,
    parameterSize: nat,
    argumentSize: nat,
    constantSize: nat,
    warpSize: nat,
    kernel: PtxKernelRef,
    nextEntryId: HyperblockId)

  /** Every context of `threads` resumes at hyperblock `entryId`. */
  predicate AllAtEntry(threads: seq<ThreadContext>, entryId: HyperblockId)
  {
    forall i :: 0 <= i < |threads| ==> threads[i].entryId == entryId
  }

  /** A set of threads with the same hyperblock entry point. */
  class Warp {
    /** Ordered sequence of threads. */
    var threads: seq<ThreadContext>
    var entryId: HyperblockId

    /** Every thread of the warp is at the warp's hyperblock entry point. */
    predicate Valid()
      reads this
      ensures Valid() <==> forall t :: t in threads ==> t.entryId == entryId
    {
      AllAtEntry(threads, entryId)
    }

    /** An empty warp at entry point 0. */
    constructor ()
      ensures threads == [] && entryId == 0
      ensures Valid()
    {
      threads := [];
      entryId := 0;
    }

    /** The number of threads in the warp. */
    function Size(): (n: nat)
      reads this
      ensures n == |threads|
    {
      |threads|
    }
  }

  /** The number of contexts queued, summed over every CTA. */
  ghost function QueuedCount(q: CtaThreadQueue): nat
    decreases |q|
  {
    if q == map[] then 0
    else
      var k :| k in q;
      assert |q - {k}| < |q| by { assert (q - {k}).Keys == q.Keys - {k}; }
      |q[k]| + QueuedCount(q - {k})
  }

  /** No context is left in any CTA's queue. */
  predicate NoneQueued(q: CtaThreadQueue)
  {
    forall k :: k in q ==> q[k] == []
  }

  /** The count can be split at any CTA, whichever CTA the definition picks. */
  lemma {:induction false} QueuedCountRemove(q: CtaThreadQueue, k: CtaId)
    requires k in q
    ensures QueuedCount(q) == |q[k]| + QueuedCount(q - {k})
    decreases |q|
  {
    var k' :| k' in q && QueuedCount(q) == |q[k']| + QueuedCount(q - {k'});
    if k' != k {
      assert (q - {k'}).Keys == q.Keys - {k'};
      assert (q - {k}).Keys == q.Keys - {k};
      QueuedCountRemove(q - {k'}, k);
      QueuedCountRemove(q - {k}, k');
      assert q - {k'} - {k} == q - {k} - {k'};
    }
  }

  /**
   * Replacing one CTA's queue changes the total by the difference in that
   * queue's length alone.
   */
  lemma QueuedCountUpdate(q: CtaThreadQueue, k: CtaId, s: ThreadContextQueue)
    ensures k in q ==> QueuedCount(q[k := s]) + |q[k]| == QueuedCount(q) + |s|
    ensures k !in q ==> QueuedCount(q[k := s]) == QueuedCount(q) + |s|
  {
    QueuedCountRemove(q[k := s], k);
    if k in q {
      QueuedCountRemove(q, k);
      assert q[k := s] - {k} == q - {k};
    } else {
      assert q[k := s] - {k} == q;
    }
  }

  /** The total is zero exactly when every CTA's queue is empty. */
  lemma {:induction false} QueuedCountZero(q: CtaThreadQueue)
    ensures QueuedCount(q) == 0 <==> NoneQueued(q)
    decreases |q|
  {
    if q != map[] {
      var k :| k in q;
      QueuedCountRemove(q, k);
      assert (q - {k}).Keys == q.Keys - {k};
      QueuedCountZero(q - {k});
      if QueuedCount(q) == 0 {
        forall k2 | k2 in q
          ensures q[k2] == []
        {
          if k2 != k {
            assert k2 in q - {k};
          }
        }
      }
    }
  }

  /** The contexts of a new CTA of `n` threads: thread i, at entry point 0. */
  function InitialContexts(n: nat): (s: ThreadContextQueue)
    ensures |s| == n
    ensures AllAtEntry(s, 0)
    ensures forall i :: 0 <= i < n ==> s[i].tid == i
  {
    seq(n, (i: nat) => ThreadContext(i, 0))
  }

  /** Manages the execution of one or more CTAs on a single processor. */
  class DynamicExecutive {
    /** The kernel to execute. */
    var kernel: KernelHandle
    var processor: int
    /** The threads of each CTA which may execute next. */
    var readyQueue: CtaThreadQueue
    /** The threads of each CTA waiting on a barrier. */
    var waitingQueue: CtaThreadQueue

    constructor (kernel: KernelHandle, procId: int)
      ensures this.kernel == kernel && processor == procId
      ensures readyQueue == map[] && waitingQueue == map[]
    {
      this.kernel := kernel;
      processor := procId;
      readyQueue := map[];
      waitingQueue := map[];
    }

    /**
     * The state `execute` returns in: every thread context has terminated,
     * so none is left in a ready or a waiting queue.
     */
    ghost predicate Terminated()
      reads this
      ensures Terminated() <==> QueuedCount(readyQueue) + QueuedCount(waitingQueue) == 0
    {
      QueuedCountZero(readyQueue);
      QueuedCountZero(waitingQueue);
      NoneQueued(readyQueue) && NoneQueued(waitingQueue)
    }

    /**
     * Adds a CTA of `threadCount` threads to the execution list: all of its
     * threads become ready at entry point 0, and no other CTA's queue changes
     * (the map update below leaves every other key as it was).
     */
    method AddCta(cta: CtaId, threadCount: nat)
      requires cta !in readyQueue && cta !in waitingQueue
      modifies this`readyQueue
      ensures readyQueue == old(readyQueue)[cta := InitialContexts(threadCount)]
      ensures QueuedCount(readyQueue) == old(QueuedCount(readyQueue)) + threadCount
    {
      QueuedCountUpdate(readyQueue, cta, InitialContexts(threadCount));
      readyQueue := readyQueue[cta := InitialContexts(threadCount)];
    }
  }
}
