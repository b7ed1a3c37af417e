/** The chat server's job queue: a linked list in place, and the worker threads
    that sleep on its condition variable. */
module JobQueue {

  // ----- the queue in place -----

  class Job {
    const msg: seq<int>
    var next: Job?

    constructor (msg: seq<int>)
      ensures this.msg == msg
    {
      this.msg, next := msg, null;
    }
  }

  class Queue {
    var head: Job?
    var tail: Job?
    var closed: bool

    /** The jobs linked from `head` are `jobs`, in order and all different, and
        `tail` is the last of them, or null with `head`. */
    ghost predicate Holds(jobs: seq<Job>)
      reads this, jobs
    {
      && head == (if jobs == [] then null else jobs[0])
      && tail == (if jobs == [] then null else jobs[|jobs| - 1])
      && (forall i {:trigger jobs[i].next} | 0 <= i < |jobs| ::
            jobs[i].next == if i + 1 < |jobs| then jobs[i + 1] else null)
      && (forall i, j | 0 <= i < j < |jobs| :: jobs[i] != jobs[j])
    }

    constructor ()
      ensures Holds([]) && !closed
    {
      head, tail, closed := null, null, false;
    }

    /** `q_push` while the lock is held. */
    method Push(j: Job, ghost jobs: seq<Job>)
      requires Holds(jobs) && j !in jobs
      modifies this`head, this`tail, j, jobs
      ensures Holds(jobs + [j])
    {
      j.next := null;
      if tail == null {
        head := j;
        tail := j;
      } else {
        tail.next := j;
        tail := j;
      }
      assert jobs != [] ==> (jobs + [j])[|jobs| - 1].next == j;
    }

    /** The removal in `q_pop`, and all of `q_try_pop`. */
    method TryPop(ghost jobs: seq<Job>) returns (j: Job?)
      requires Holds(jobs)
      modifies this`head, this`tail
      ensures j == (if jobs == [] then null else jobs[0])
      ensures Holds(if jobs == [] then [] else jobs[1..])
    {
      if head == null {
        return null;
      }
      j := head;
      assert jobs[0].next == if 1 < |jobs| then jobs[1] else null;
      head := head.next;
      if head == null {
        tail := null;
      }
    }

    /** One look at the queue by `q_pop`: wait, return nothing, or take a job. */
    method Look(ghost jobs: seq<Job>) returns (wait: bool, j: Job?)
      requires Holds(jobs)
      modifies this`head, this`tail
      ensures wait <==> jobs == [] && !closed
      ensures j == (if jobs == [] then null else jobs[0])
      ensures Holds(if jobs == [] then [] else jobs[1..])
    {
      if head == null && !closed {
        return true, null;
      }
      wait := false;
      if closed && head == null {
        return false, null;
      }
      j := TryPop(jobs);
    }
  }

  // ----- the threads -----

  /** A worker at the top of its loop or processing a job; about to look at the
      queue; asleep in `pthread_cond_wait`; or finished. */
  datatype Worker = AtLoop | Looking | Asleep | Exited

  /** `pushed` and `popped` log the jobs; `queue` is what is linked. */
  datatype State = State(queue: seq<int>, closed: bool, shutdown: bool, workers: seq<Worker>,
                         pushed: seq<int>, popped: seq<int>)

  function Start(n: nat): State { State([], false, false, seq(n, _ => AtLoop), [], []) }

  /** A push, with the sleeper the system would wake; another thread's
      `q_try_pop`; closing; the shutdown flag; a worker's turn; or a wakeup that no
      signal caused. */
  datatype Event =
    | Push(job: int, woken: nat)
    | TryPop
    | Close
    | Shutdown
    | Turn(w: nat)
    | Spurious(w: nat)

  function FirstAsleep(ws: seq<Worker>, i: nat): (k: nat)
    requires i <= |ws|
    ensures i <= k <= |ws|
    ensures k < |ws| ==> ws[k] == Asleep
    ensures forall j | i <= j < k :: ws[j] != Asleep
    decreases |ws| - i
  {
    if i == |ws| || ws[i] == Asleep then i else FirstAsleep(ws, i + 1)
  }

  /** `pthread_cond_signal` wakes one sleeper, if there is one. */
  function Signal(ws: seq<Worker>, woken: nat): seq<Worker> {
    var w := if woken < |ws| && ws[woken] == Asleep then woken else FirstAsleep(ws, 0);
    if w < |ws| then ws[w := Looking] else ws
  }

  function Broadcast(ws: seq<Worker>): seq<Worker> {
    seq(|ws|, i requires 0 <= i < |ws| => if ws[i] == Asleep then Looking else ws[i])
  }

  function Pop(s: State): State
    requires s.queue != []
  {
    s.(queue := s.queue[1..], popped := s.popped + [s.queue[0]])
  }

  /** A worker leaves its loop when the shutdown flag is set or the queue gives it
      nothing. */
  function WorkerTurn(s: State, w: nat): State
    requires w < |s.workers|
  {
    match s.workers[w]
    case AtLoop => s.(workers := s.workers[w := if s.shutdown then Exited else Looking])
    case Looking =>
      if s.queue == [] && !s.closed then s.(workers := s.workers[w := Asleep])
      else if s.queue == [] then s.(workers := s.workers[w := Exited])
      else Pop(s).(workers := s.workers[w := AtLoop])
    case _ => s
  }

  function Step(s: State, e: Event): State {
    match e
    case Push(job, woken) =>
      s.(queue := s.queue + [job], pushed := s.pushed + [job], workers := Signal(s.workers, woken))
    case TryPop => if s.queue == [] then s else Pop(s)
    case Close => s.(closed := true, workers := Broadcast(s.workers))
    case Shutdown => s.(shutdown := true)
    case Turn(w) => if w < |s.workers| then WorkerTurn(s, w) else s
    case Spurious(w) =>
      if w < |s.workers| && s.workers[w] == Asleep then s.(workers := s.workers[w := Looking]) else s
  }

  function Run(n: nat, es: seq<Event>): State {
    if es == [] then Start(n) else Step(Run(n, es[..|es| - 1]), es[|es| - 1])
  }

  // ----- invariant -----

  function CountLooking(ws: seq<Worker>): nat {
    if ws == [] then 0 else CountLooking(ws[..|ws| - 1]) + if ws[|ws| - 1] == Looking then 1 else 0
  }

  lemma {:induction false} CountUpdate(ws: seq<Worker>, i: nat, w: Worker)
    requires i < |ws|
    ensures CountLooking(ws[i := w]) ==
      CountLooking(ws) - (if ws[i] == Looking then 1 else 0) + (if w == Looking then 1 else 0)
  {
    var last := |ws| - 1;
    if i == last {
      assert ws[i := w][..last] == ws[..last];
    } else {
      assert ws[i := w][..last] == ws[..last][i := w];
      CountUpdate(ws[..last], i, w);
    }
  }

  /** Jobs come out as they went in.  While anybody sleeps, the queue is open and
      every job in it has a worker of its own on the way to take it. */
  ghost predicate Inv(s: State) {
    && s.pushed == s.popped + s.queue
    && ((exists w | 0 <= w < |s.workers| :: s.workers[w] == Asleep) ==>
        !s.closed && |s.queue| <= CountLooking(s.workers))
    && (!s.shutdown && !s.closed ==> forall w | 0 <= w < |s.workers| :: s.workers[w] != Exited)
  }

  lemma PushKeepsInv(s: State, job: int, woken: nat)
    requires Inv(s)
    ensures Inv(Step(s, Push(job, woken)))
  {
    var w := if woken < |s.workers| && s.workers[woken] == Asleep then woken else FirstAsleep(s.workers, 0);
    if w < |s.workers| {
      CountUpdate(s.workers, w, Looking);
    }
    assert s.popped + s.queue + [job] == s.popped + (s.queue + [job]);
  }

  lemma TurnKeepsInv(s: State, w: nat)
    requires Inv(s) && w < |s.workers|
    ensures Inv(WorkerTurn(s, w))
  {
    var t := WorkerTurn(s, w);
    CountUpdate(s.workers, w, t.workers[w]);
    hide CountLooking;
    if s.queue != [] {
      assert s.popped + s.queue == s.popped + [s.queue[0]] + s.queue[1..];
    }
  }

  lemma StepKeepsInv(s: State, e: Event)
    requires Inv(s)
    ensures Inv(Step(s, e)) && |Step(s, e).workers| == |s.workers|
  {
    match e
    case Push(job, woken) => PushKeepsInv(s, job, woken);
    case TryPop =>
      if s.queue != [] {
        assert s.popped + s.queue == s.popped + [s.queue[0]] + s.queue[1..];
      }
    case Turn(w) =>
      if w < |s.workers| {
        TurnKeepsInv(s, w);
      }
    case Spurious(w) =>
      if w < |s.workers| {
        CountUpdate(s.workers, w, Looking);
      }
    case _ =>
  }

  lemma {:induction false} EveryRunIsOk(n: nat, es: seq<Event>)
    ensures Inv(Run(n, es)) && |Run(n, es).workers| == n
  {
    if es == [] {
      assert Inv(Start(n));
    } else {
      hide Inv, Step;
      EveryRunIsOk(n, es[..|es| - 1]);
      StepKeepsInv(Run(n, es[..|es| - 1]), es[|es| - 1]);
    }
  }

  // ----- what it means -----

  /** First in, first out, nothing lost and nothing repeated: the jobs popped
      followed by those still queued are those pushed. */
  lemma FirstInFirstOut(n: nat, es: seq<Event>)
    ensures Run(n, es).popped + Run(n, es).queue == Run(n, es).pushed
  {
    EveryRunIsOk(n, es);
  }

  lemma {:induction false} SomeLooking(ws: seq<Worker>) returns (w: nat)
    requires CountLooking(ws) > 0
    ensures w < |ws| && ws[w] == Looking
  {
    if ws[|ws| - 1] == Looking {
      w := |ws| - 1;
    } else {
      w := SomeLooking(ws[..|ws| - 1]);
    }
  }

  /** No wakeup is lost: a queued job never waits on sleepers alone, not even
      while the server shuts down. */
  lemma NoLostWakeup(n: nat, es: seq<Event>)
    ensures var s := Run(n, es);
      s.queue != [] && (exists w | 0 <= w < |s.workers| :: s.workers[w] == Asleep) ==>
        exists w | 0 <= w < |s.workers| :: s.workers[w] == Looking
  {
    EveryRunIsOk(n, es);
    var s := Run(n, es);
    if s.queue != [] && exists w | 0 <= w < |s.workers| :: s.workers[w] == Asleep {
      var w := SomeLooking(s.workers);
    }
  }

  /** Once the queue is closed nobody sleeps, so every worker can go on to exit. */
  lemma NobodySleepsWhenClosed(n: nat, es: seq<Event>)
    ensures var s := Run(n, es);
      s.closed ==> forall w | 0 <= w < |s.workers| :: s.workers[w] != Asleep
  {
    EveryRunIsOk(n, es);
  }

  /** Before any shutdown or close no worker has exited. */
  lemma NoneExitsEarly(n: nat, es: seq<Event>)
    ensures var s := Run(n, es);
      && |s.workers| == n
      && (!s.shutdown && !s.closed ==> forall w | 0 <= w < n :: s.workers[w] != Exited)
  {
    EveryRunIsOk(n, es);
  }
}
