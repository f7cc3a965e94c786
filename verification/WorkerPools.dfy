/** Jobs, and the bounded pool that runs them. */
module Jobs {
  /** The key of a job in the in-flight table: a schedule's id, or an ad-hoc run's id under its own prefix. */
  datatype Key = ScheduleKey(id: string) | AdHocKey(id: string)

  /** `ticket` numbers the accepted jobs in the order of their acceptance. */
  datatype Job = Job(ticket: nat, key: Key, target: string)
}

module WorkerPools {
  import opened Jobs

  /** Capacity of the channel that carries shrink tokens. */
  const TOKEN_BUFFER: nat := 1024

  /**
   The pool's fields. `queue` is the job channel with room for `capacity` jobs; `tokens` are the
   shrink requests waiting to be picked up; `workers` counts worker loops that have not finished.
   */
  datatype Pool = Pool(size: nat, active: int, queue: seq<Job>, capacity: nat,
                       started: bool, stopped: bool, workers: int, tokens: nat)

  function NewPool(size: int): Pool {
    var n := if size <= 0 then 1 else size;
    Pool(n, 0, [], n, false, false, 0, 0)
  }

  function StartedPool(p: Pool): Pool {
    if p.started then p else p.(started := true, workers := p.workers + p.size)
  }

  /** Loops spawned by a resize to `n`. */
  function Spawned(p: Pool, n: nat): nat {
    if n > p.size && p.started && !p.stopped then n - p.size else 0
  }

  /** Shrink tokens a resize to `n` manages to queue; the rest are dropped. */
  function Queued(p: Pool, n: nat): nat {
    if n >= p.size then 0
    else if p.size - n <= TOKEN_BUFFER - p.tokens then p.size - n
    else if p.tokens <= TOKEN_BUFFER then TOKEN_BUFFER - p.tokens else 0
  }

  function Normalized(n: int): nat {
    if n <= 0 then 1 else n
  }

  function ResizedPool(p: Pool, newSize: int): Pool {
    var n := Normalized(newSize);
    p.(size := n, workers := p.workers + Spawned(p, n), tokens := p.tokens + Queued(p, n))
  }

  function FreeSlots(p: Pool): nat {
    if p.size - p.active < 0 then 0 else p.size - p.active
  }

  /** The job fits in the queue's buffer. */
  predicate HasRoom(p: Pool) {
    |p.queue| < p.capacity
  }

  /** What became of a send on the job queue. */
  datatype Sent = Taken | Full | Panicked

  class WorkerPool {
    var size: nat
    var active: int
    var jobs: seq<Job>
    const capacity: nat
    var started: bool
    var stopped: bool
    var workers: int
    var excessQuit: nat

    function View(): Pool
      reads this
    {
      Pool(size, active, jobs, capacity, started, stopped, workers, excessQuit)
    }

    constructor (size: int)
      ensures View() == NewPool(size)
      ensures this.size == capacity == (if size <= 0 then 1 else size) && active == 0 && jobs == []
      ensures !started && !stopped && workers == 0 && excessQuit == 0
    {
      var n := if size <= 0 then 1 else size;
      this.size, active, jobs, capacity := n, 0, [], n;
      started, stopped, workers, excessQuit := false, false, 0, 0;
    }

    method SpawnWorkerLocked()
      modifies this`workers
      ensures workers == old(workers) + 1
    {
      workers := workers + 1;
    }

    method Start()
      modifies this
      ensures View() == StartedPool(old(View()))
      ensures started && workers == old(workers) + if old(started) then 0 else size
      ensures size == old(size) && active == old(active) && jobs == old(jobs) && excessQuit == old(excessQuit)
    {
      if started {
        return;
      }
      started := true;
      for i := 0 to size
        invariant View() == old(View()).(started := true, workers := old(workers) + i)
      {
        SpawnWorkerLocked();
      }
    }

    method Free() returns (free: nat)
      ensures free == FreeSlots(View())
      ensures free == if active >= size then 0 else size - active
    {
      var f := size - active;
      if f < 0 {
        return 0;
      }
      free := f;
    }

    /** Whether the pool still takes jobs. The answer can be out of date when the send follows. */
    method IsOpen() returns (open: bool)
      ensures open <==> !stopped
    {
      open := !stopped;
    }

    /** Never blocks: a job is refused when the queue is full, and a send on the closed queue panics. */
    method TrySend(job: Job) returns (r: Sent)
      modifies this
      ensures r.Panicked? <==> old(stopped)
      ensures r.Taken? <==> !old(stopped) && |old(jobs)| < capacity
      ensures View() == if r.Taken? then old(View()).(queue := old(jobs) + [job]) else old(View())
    {
      if stopped {
        return Panicked;
      }
      if |jobs| < capacity {
        jobs := jobs + [job];
        r := Taken;
      } else {
        r := Full;
      }
    }

    method Resize(newSize: int)
      modifies this
      ensures View() == ResizedPool(old(View()), newSize)
      ensures size == (if newSize <= 0 then 1 else newSize)
      ensures workers == old(workers) + if size > old(size) && started && !stopped then size - old(size) else 0
      ensures size >= old(size) ==> excessQuit == old(excessQuit)
      ensures size < old(size) && old(excessQuit) <= 1024 ==>
                excessQuit == if old(excessQuit) + old(size) - size <= 1024
                  then old(excessQuit) + old(size) - size else 1024
      ensures active == old(active) && jobs == old(jobs) && started == old(started) && stopped == old(stopped)
    {
      var n := if newSize <= 0 then 1 else newSize;
      if n == size {
        return;
      }
      if n > size {
        var toAdd := n - size;
        size := n;
        if started && !stopped {
          for i := 0 to toAdd
            invariant View() == old(View()).(size := n, workers := old(workers) + i)
          {
            SpawnWorkerLocked();
          }
        }
        return;
      }
      var toRemove := size - n;
      size := n;
      for i := 0 to toRemove
        invariant View() == old(View()).(size := n, tokens := excessQuit)
        invariant excessQuit == if i <= TOKEN_BUFFER - old(excessQuit) then old(excessQuit) + i
                                else if old(excessQuit) <= TOKEN_BUFFER then TOKEN_BUFFER else old(excessQuit)
      {
        if excessQuit < TOKEN_BUFFER {
          excessQuit := excessQuit + 1;
        }
      }
    }

    /** Marks the pool stopped and closes the queue; jobs already queued stay in it. */
    method Stop()
      modifies this
      ensures View() == old(View()).(stopped := true)
    {
      if stopped {
        return;
      }
      stopped := true;
    }
  }
}
