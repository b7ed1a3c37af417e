/** What each event does to the job queue's threads, and that they get their work done:
    turns come to an end, and then nothing that could be taken is left. */
module JobProgress {
  import opened Common
  import opened JobQueue

  // ----- what each event does -----

  /** A turn takes a job exactly if the worker looks and there is one. */
  predicate Takes(s: State, w: nat)
    requires w < |s.workers|
  {
    s.workers[w] == Looking && s.queue != []
  }

  /** A worker at its loop looks for a job unless told to stop; one that looks takes the
      first job, sleeps if the queue is empty and open, or leaves if it is empty and
      closed; the others do nothing. */
  lemma TurnIs(s: State, w: nat)
    requires w < |s.workers|
    ensures var t := WorkerTurn(s, w); var before, after := s.workers[w], t.workers[w];
      && t.workers == s.workers[w := after]
      && t.closed == s.closed && t.shutdown == s.shutdown && t.pushed == s.pushed
      && t.popped == s.popped + (if Takes(s, w) then s.queue[..1] else [])
      && t.queue == (if Takes(s, w) then s.queue[1..] else s.queue)
      && (before == AtLoop ==> (after == Exited <==> s.shutdown) && (after == Looking <==> !s.shutdown))
      && (before == Looking ==>
            && (after == AtLoop <==> s.queue != [])
            && (after == Asleep <==> s.queue == [] && !s.closed)
            && (after == Exited <==> s.queue == [] && s.closed))
      && (before == Asleep || before == Exited ==> after == before)
  {
  }

  /** `after` is `before` with one sleeper woken, or none if nobody sleeps. */
  ghost predicate OneWoken(before: seq<Worker>, after: seq<Worker>) {
    if Asleep in before then exists w :: 0 <= w < |before| && before[w] == Asleep && after == before[w := Looking]
    else after == before
  }

  lemma PushIs(s: State, job: int, woken: nat)
    ensures var t := Step(s, Push(job, woken));
      && t == s.(queue := s.queue + [job], pushed := s.pushed + [job], workers := t.workers)
      && OneWoken(s.workers, t.workers)
      && (woken < |s.workers| && s.workers[woken] == Asleep ==> t.workers == s.workers[woken := Looking])
  {
    var w := FirstAsleep(s.workers, 0);
    assert w == |s.workers| ==> Asleep !in s.workers;
  }

  lemma CloseIs(s: State)
    ensures var t := Step(s, Close);
      && t == s.(closed := true, workers := t.workers) && |t.workers| == |s.workers|
      && forall w | 0 <= w < |s.workers| ::
           if s.workers[w] == Asleep then t.workers[w] == Looking else t.workers[w] == s.workers[w]
  {
  }

  /** Another thread's removal, the shutdown flag, and a wakeup without a signal, which is
      of a sleeper only. */
  lemma OthersAre(s: State, w: nat)
    ensures Step(s, Shutdown) == s.(shutdown := true)
    ensures var t := Step(s, TryPop);
      && t == s.(queue := t.queue, popped := t.popped)
      && (s.queue != [] ==> t.popped == s.popped + [s.queue[0]] && [s.queue[0]] + t.queue == s.queue)
      && (s.queue == [] ==> t == s)
    ensures var t := Step(s, Spurious(w));
      if w < |s.workers| && s.workers[w] == Asleep then t == s.(workers := s.workers[w := Looking]) else t == s
    ensures w < |s.workers| ==> Step(s, Turn(w)) == WorkerTurn(s, w)
    ensures w >= |s.workers| ==> Step(s, Turn(w)) == s
  {
  }

  /** At first nothing is queued, nobody is told to stop, and all workers are at their loop. */
  lemma StartIs(n: nat)
    ensures var s := Start(n);
      && s.queue == s.pushed == s.popped == [] && !s.closed && !s.shutdown
      && |s.workers| == n && forall w | 0 <= w < n :: s.workers[w] == AtLoop
  {
  }

  // ----- turns come to an end -----

  predicate CanTurn(s: State, w: nat) { w < |s.workers| && (s.workers[w] == AtLoop || s.workers[w] == Looking) }

  function Rank(w: Worker): nat { if w == AtLoop then 2 else if w == Looking then 1 else 0 }

  /** How many turns can be left. */
  function TurnsLeft(s: State): nat { 3 * |s.queue| + Total(s.workers, Rank) }

  lemma TurnUsesOneUp(s: State, w: nat)
    requires CanTurn(s, w)
    ensures TurnsLeft(WorkerTurn(s, w)) < TurnsLeft(s)
  {
    TurnIs(s, w);
    TotalUpdate(s.workers, w, WorkerTurn(s, w).workers[w], Rank);
    hide Total, WorkerTurn;
  }

  ghost predicate NoTurnLeft(s: State) { forall w: nat :: !CanTurn(s, w) }

  predicate OnlyTurns(es: seq<Event>) { forall i | 0 <= i < |es| :: es[i].Turn? }

  lemma {:induction false} OneMore(n: nat, es: seq<Event>, e: Event)
    ensures Run(n, es + [e]) == Step(Run(n, es), e)
  {
    assert (es + [e])[..|es|] == es;
  }

  /** Left to themselves the workers come to a stop. */
  lemma {:induction false} TurnsRunOut(n: nat, es: seq<Event>) returns (more: seq<Event>)
    ensures OnlyTurns(more) && NoTurnLeft(Run(n, es + more)) && |more| <= TurnsLeft(Run(n, es))
    decreases TurnsLeft(Run(n, es))
  {
    var s := Run(n, es);
    if w: nat :| CanTurn(s, w) {
      OneMore(n, es, Turn(w));
      OthersAre(s, w);
      TurnUsesOneUp(s, w);
      hide Run, CanTurn, TurnsLeft, Step, WorkerTurn, NoTurnLeft;
      var rest := TurnsRunOut(n, es + [Turn(w)]);
      more := [Turn(w)] + rest;
      Assoc(es, [Turn(w)], rest);
    } else {
      more := [];
      AndNone(es);
    }
  }

  // ----- and then the work is done -----

  lemma {:induction false} NoneLooking(ws: seq<Worker>)
    requires forall w | 0 <= w < |ws| :: ws[w] != Looking
    ensures CountLooking(ws) == 0
  {
    if ws == [] {
    } else {
      NoneLooking(ws[..|ws| - 1]);
    }
  }

  /** When no worker can take a turn, each sleeps or has left: nothing is queued if anybody
      sleeps, and nobody sleeps once the queue is closed. */
  lemma WhenNoTurnIsLeft(n: nat, es: seq<Event>)
    requires NoTurnLeft(Run(n, es))
    ensures var s := Run(n, es);
      && |s.workers| == n
      && (Asleep in s.workers ==> s.queue == [] && s.popped == s.pushed && !s.closed)
      && (Asleep !in s.workers ==> forall w | 0 <= w < n :: s.workers[w] == Exited)
  {
    EveryRunIsOk(n, es);
    var s := Run(n, es);
    forall w | 0 <= w < |s.workers| ensures s.workers[w] == Asleep || s.workers[w] == Exited {
      assert !CanTurn(s, w);
    }
    NoneLooking(s.workers);
    if Asleep in s.workers {
      var w :| 0 <= w < |s.workers| && s.workers[w] == Asleep;
      assert s.popped + [] == s.popped;
    }
  }

  lemma {:induction false} TurnsKeepFlags(n: nat, es: seq<Event>, more: seq<Event>)
    requires OnlyTurns(more)
    ensures var s, t := Run(n, es), Run(n, es + more);
      t.closed == s.closed && t.shutdown == s.shutdown && t.pushed == s.pushed
    decreases |more|
  {
    if more == [] {
      AndNone(es);
    } else {
      var last := |more| - 1;
      assert more[last].Turn?;
      TurnsKeepFlags(n, es, more[..last]);
      TurnKeepsFlags(n, es + more[..last], more[last].w);
      hide Run, OnlyTurns;
      TakeOneMore(more, |more|);
      TakeAll(more);
      Assoc(es, more[..last], [more[last]]);
    }
  }

  lemma TurnKeepsFlags(n: nat, es: seq<Event>, w: nat)
    ensures var s, t := Run(n, es), Run(n, es + [Turn(w)]);
      t.closed == s.closed && t.shutdown == s.shutdown && t.pushed == s.pushed
  {
    OneMore(n, es, Turn(w));
    hide Run;
  }

  /** While the server is up with a worker at least, every job pushed so far is taken by
      the workers' own turns, in order; then all of them sleep. */
  lemma EveryJobIsTaken(n: nat, es: seq<Event>) returns (more: seq<Event>)
    requires n > 0 && !Run(n, es).closed && !Run(n, es).shutdown
    ensures OnlyTurns(more) && |more| <= TurnsLeft(Run(n, es))
    ensures var t := Run(n, es + more);
      && t.queue == [] && t.popped == Run(n, es).pushed
      && |t.workers| == n && forall w | 0 <= w < n :: t.workers[w] == Asleep
  {
    more := TurnsRunOut(n, es);
    TurnsKeepFlags(n, es, more);
    WhenNoTurnIsLeft(n, es + more);
    NoneExitsEarly(n, es + more);
    hide Run, TurnsLeft;
    var t := Run(n, es + more);
    assert t.workers[0] != Exited;
    forall w | 0 <= w < n ensures t.workers[w] == Asleep {
      assert !CanTurn(t, w);
    }
  }

  /** Once the queue is closed, every worker leaves by its own turns. */
  lemma EveryWorkerLeaves(n: nat, es: seq<Event>) returns (more: seq<Event>)
    requires Run(n, es).closed
    ensures OnlyTurns(more) && |more| <= TurnsLeft(Run(n, es))
    ensures var t := Run(n, es + more); |t.workers| == n && forall w | 0 <= w < n :: t.workers[w] == Exited
  {
    more := TurnsRunOut(n, es);
    TurnsKeepFlags(n, es, more);
    WhenNoTurnIsLeft(n, es + more);
  }
}
