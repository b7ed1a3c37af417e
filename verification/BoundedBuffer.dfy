/** A producer and a consumer thread sharing a circular buffer under a mutex with
    two condition variables, interleaved where they take the lock. */
module BoundedBuffer {

  const NLOOP := 50
  const BUFFSIZE := 10

  /** A thread is running, or waiting on its condition variable. */
  datatype Status = Running | Asleep

  /** `produced` and `consumed` are the loop counters; `received` logs the values
      the consumer got. */
  datatype State = State(buf: seq<int>, nitems: int, nextget: nat, nextput: nat,
                         producer: Status, produced: nat, consumer: Status, consumed: nat, received: seq<int>)

  function Advance(i: nat): nat { if i + 1 >= BUFFSIZE then 0 else i + 1 }

  predicate Shape(s: State) { |s.buf| == BUFFSIZE && s.nextget < BUFFSIZE && s.nextput < BUFFSIZE }

  /** One turn of `produce` from taking the lock to giving it up: wait if the buffer
      is full, else store the value and signal the consumer. */
  function AfterProduce(s: State): (t: State)
    requires Shape(s)
    ensures Shape(t)
  {
    if s.nitems >= BUFFSIZE then s.(producer := Asleep)
    else s.(buf := s.buf[s.nextput := s.produced], nextput := Advance(s.nextput), nitems := s.nitems + 1,
            produced := s.produced + 1, consumer := Running)
  }

  function AfterConsume(s: State): (t: State)
    requires Shape(s)
    ensures Shape(t)
  {
    if s.nitems <= 0 then s.(consumer := Asleep)
    else s.(received := s.received + [s.buf[s.nextget]], nextget := Advance(s.nextget), nitems := s.nitems - 1,
            consumed := s.consumed + 1, producer := Running)
  }

  /** A thread's turn, or a wakeup that no signal caused. */
  datatype Event = ProducerTurn | ConsumerTurn | ProducerWakes | ConsumerWakes

  predicate Enabled(s: State, e: Event) {
    match e
    case ProducerTurn => s.producer == Running && s.produced < NLOOP
    case ConsumerTurn => s.consumer == Running && s.consumed < NLOOP
    case ProducerWakes => s.producer == Asleep
    case ConsumerWakes => s.consumer == Asleep
  }

  function Step(s: State, e: Event): (t: State)
    requires Shape(s)
    ensures Shape(t)
  {
    if !Enabled(s, e) then s
    else
      match e
      case ProducerTurn => AfterProduce(s)
      case ConsumerTurn => AfterConsume(s)
      case ProducerWakes => s.(producer := Running)
      case ConsumerWakes => s.(consumer := Running)
  }

  const START := State([0, 0, 0, 0, 0, 0, 0, 0, 0, 0], 0, 0, 0, Running, 0, Running, 0, [])

  function Run(es: seq<Event>): (s: State)
    ensures Shape(s)
  {
    if es == [] then START else Step(Run(es[..|es| - 1]), es[|es| - 1])
  }

  // ----- safety, under every interleaving -----

  /** What was received is 0, 1, 2, ..., what the buffer holds continues it up to
      what was produced, and the two threads are never both asleep. */
  ghost predicate Inv(s: State) {
    && Shape(s)
    && 0 <= s.nitems <= BUFFSIZE && s.produced == s.consumed + s.nitems && s.produced <= NLOOP
    && s.nextget == s.consumed % BUFFSIZE && s.nextput == s.produced % BUFFSIZE
    && |s.received| == s.consumed && (forall k | 0 <= k < s.consumed :: s.received[k] == k)
    && (forall k | s.consumed <= k < s.produced :: s.buf[k % BUFFSIZE] == k)
    && (s.producer == Asleep ==> s.nitems == BUFFSIZE)
    && (s.consumer == Asleep ==> s.nitems == 0 && s.consumed < NLOOP)
  }

  lemma ModNext(n: nat)
    ensures Advance(n % BUFFSIZE) == (n + 1) % BUFFSIZE
  {
  }

  lemma OtherSlot(k: nat, n: nat)
    requires k < n < k + BUFFSIZE
    ensures k % BUFFSIZE != n % BUFFSIZE
  {
  }

  lemma StepKeepsInv(s: State, e: Event)
    requires Inv(s)
    ensures Inv(Step(s, e))
  {
    ModNext(s.produced);
    ModNext(s.consumed);
    if e == ProducerTurn && Enabled(s, e) && s.nitems < BUFFSIZE {
      forall k | s.consumed <= k < s.produced ensures k % BUFFSIZE != s.nextput {
        OtherSlot(k, s.produced);
      }
    }
  }

  lemma {:induction false} EveryRunIsSafe(es: seq<Event>)
    ensures Inv(Run(es))
  {
    if es == [] {
    } else {
      EveryRunIsSafe(es[..|es| - 1]);
      StepKeepsInv(Run(es[..|es| - 1]), es[|es| - 1]);
    }
  }

  /** Values come out as they went in: the received values followed by the buffer's
      contents, read round the circle from `nextget`, are 0 up to what was
      produced. */
  lemma ReceivedThenBuffered(es: seq<Event>)
    ensures var s := Run(es);
      && 0 <= s.nitems <= BUFFSIZE
      && s.received + seq(s.nitems, i requires 0 <= i < s.nitems => s.buf[(s.nextget + i) % BUFFSIZE])
         == seq(s.produced, k => k)
  {
    hide Run, Step;
    EveryRunIsSafe(es);
    var s := Run(es);
    var held := seq(s.nitems, i requires 0 <= i < s.nitems => s.buf[(s.nextget + i) % BUFFSIZE]);
    forall i | 0 <= i < s.nitems ensures held[i] == s.consumed + i {
      ModAdd(s.consumed, i);
    }
    Concatenated(s.received, held, s.produced);
  }

  lemma Concatenated(a: seq<int>, b: seq<int>, n: nat)
    requires |a| + |b| == n && (forall k | 0 <= k < |a| :: a[k] == k) && (forall k | 0 <= k < |b| :: b[k] == |a| + k)
    ensures a + b == seq(n, k => k)
  {
  }

  lemma ModAdd(a: nat, i: nat)
    ensures (a % BUFFSIZE + i) % BUFFSIZE == (a + i) % BUFFSIZE
  {
  }

  /** The threads are never both blocked. */
  lemma NeverBothAsleep(es: seq<Event>)
    ensures !(Run(es).producer == Asleep && Run(es).consumer == Asleep)
  {
    EveryRunIsSafe(es);
  }

  lemma {:induction false} OneMore(es: seq<Event>, e: Event)
    ensures Run(es + [e]) == Step(Run(es), e)
  {
    assert (es + [e])[..|es|] == es;
  }

  /** A wakeup that no signal caused does nothing to a thread that is not waiting, and the
      woken thread's next turn undoes it: its condition still does not hold. */
  lemma WakingUpIsHarmless(es: seq<Event>)
    ensures var s, t := Run(es), Run(es + [ProducerWakes]);
      && t == s.(producer := Running)
      && (s.producer == Asleep && s.produced < NLOOP ==> Run(es + [ProducerWakes] + [ProducerTurn]) == s)
    ensures var s, t := Run(es), Run(es + [ConsumerWakes]);
      && t == s.(consumer := Running)
      && (s.consumer == Asleep ==> Run(es + [ConsumerWakes] + [ConsumerTurn]) == s)
  {
    EveryRunIsSafe(es);
    OneMore(es, ProducerWakes);
    OneMore(es + [ProducerWakes], ProducerTurn);
    OneMore(es, ConsumerWakes);
    OneMore(es + [ConsumerWakes], ConsumerTurn);
    hide Run;
  }

  // ----- both loops finish -----

  predicate Finished(s: State) { s.produced == NLOOP && s.consumed == NLOOP }

  /** Turns still possible: at most two for each value to be moved, and one for each
      thread that may yet fall asleep. */
  function TurnsLeft(s: State): int {
    2 * (NLOOP - s.produced) + 2 * (NLOOP - s.consumed) +
    (if s.producer == Running then 1 else 0) + (if s.consumer == Running then 1 else 0)
  }

  /** Unless both loops have finished some thread can take a turn, and every turn
      brings the end nearer. */
  lemma TurnsProgress(es: seq<Event>)
    ensures var s := Run(es);
      && (Finished(s) <==> !Enabled(s, ProducerTurn) && !Enabled(s, ConsumerTurn))
      && (forall e | Enabled(s, e) && (e == ProducerTurn || e == ConsumerTurn) ::
            0 <= TurnsLeft(Step(s, e)) < TurnsLeft(s))
  {
    EveryRunIsSafe(es);
    var s := Run(es);
    forall e | Enabled(s, e) && (e == ProducerTurn || e == ConsumerTurn)
      ensures 0 <= TurnsLeft(Step(s, e)) < TurnsLeft(s)
    {
      StepKeepsInv(s, e);
    }
  }

  /** Every event of the schedule can happen: a thread's turn, or a spurious wakeup. */
  predicate AllEnabled(es: seq<Event>) {
    es == [] || (AllEnabled(es[..|es| - 1]) && Enabled(Run(es[..|es| - 1]), es[|es| - 1]))
  }

  predicate IsTurn(e: Event) { e == ProducerTurn || e == ConsumerTurn }

  function Turns(es: seq<Event>): nat {
    if es == [] then 0 else Turns(es[..|es| - 1]) + if IsTurn(es[|es| - 1]) then 1 else 0
  }

  /** Each spurious wakeup costs at most one turn more. */
  lemma {:induction false} TurnsAreBounded(es: seq<Event>)
    requires AllEnabled(es)
    ensures Turns(es) + TurnsLeft(Run(es)) <= 4 * NLOOP + 2 + (|es| - Turns(es)) && TurnsLeft(Run(es)) >= 0
  {
    if es == [] {
    } else {
      TurnsAreBounded(es[..|es| - 1]);
      TurnsProgress(es[..|es| - 1]);
    }
  }

  /** However the threads are scheduled and woken, once neither can go on both loops
      have finished, with 0 to NLOOP - 1 transferred in order. */
  lemma BothLoopsFinish(es: seq<Event>)
    ensures var s := Run(es);
      !Enabled(s, ProducerTurn) && !Enabled(s, ConsumerTurn) ==> Finished(s) && s.received == seq(NLOOP, k => k)
  {
    hide Run, Step;
    TurnsProgress(es);
    EveryRunIsSafe(es);
  }

  /** They take at most 4 * NLOOP + 2 turns to get there, and one more for each
      spurious wakeup. */
  lemma FinishInBoundedTurns(es: seq<Event>)
    requires AllEnabled(es)
    ensures Turns(es) <= 4 * NLOOP + 2 + (|es| - Turns(es))
  {
    TurnsAreBounded(es);
  }

  // ----- the program's own form -----

  /** The shared buffer; each method is a section that holds the mutex. */
  class Buf {
    const buf: array<int>
    var nitems: int
    var nextget: nat
    var nextput: nat

    ghost predicate Valid()
      reads this
    {
      buf.Length == BUFFSIZE && nextget < BUFFSIZE && nextput < BUFFSIZE
    }

    /** The buffer agrees with this part of a system state. */
    ghost predicate Is(s: State)
      reads this, buf
    {
      Valid() && buf[..] == s.buf && nitems == s.nitems && nextget == s.nextget && nextput == s.nextput
    }

    constructor ()
      ensures Is(START) && fresh(buf)
    {
      buf := new int[BUFFSIZE](_ => 0);
      nitems, nextget, nextput := 0, 0, 0;
    }

    /** One pass through `produce`'s locked section; false if it must wait. */
    method Produce(val: int, ghost s: State) returns (stored: bool)
      requires Is(s) && val == s.produced
      modifies this, buf
      ensures Is(AfterProduce(s)) && (stored <==> AfterProduce(s).produced == s.produced + 1)
    {
      if nitems >= BUFFSIZE {
        return false;
      }
      buf[nextput] := val;
      nextput := nextput + 1;
      if nextput >= BUFFSIZE {
        nextput := 0;
      }
      nitems := nitems + 1;
      stored := true;
    }

    /** One pass through `consume`'s locked section; no value if it must wait. */
    method Consume(ghost s: State) returns (vals: seq<int>)
      requires Is(s)
      modifies this
      ensures Is(AfterConsume(s)) && AfterConsume(s).received == s.received + vals
    {
      if nitems <= 0 {
        return [];
      }
      vals := [buf[nextget]];
      nextget := nextget + 1;
      if nextget >= BUFFSIZE {
        nextget := 0;
      }
      nitems := nitems - 1;
    }
  }
}
