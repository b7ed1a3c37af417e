/** When the handler runs, what each step of the main loop does, and that the loop echoes
    all that has arrived. */
module RingProgress {
  import opened Common
  import opened DatagramRing

  // ----- what each step does -----

  /** SIGIO is let through while the loop waits with nothing queued, and from when it has
      seen a datagram until it has sent it and moved on. */
  predicate Unmasked(r: Ring) {
    (r.pc == Waiting && r.nqueue == 0) || r.pc == Unblocked || r.pc == Sending || r.pc == Sent || r.pc == Advanced
  }

  /** The handler reads the datagrams there is room for, and then quits if there was room
      for no more. */
  lemma {:induction false} HandlerReads(r: Ring, batch: seq<Datagram>)
    requires |r.dg| == QSIZE && r.iput < QSIZE && r.nqueue <= QSIZE && r.pc != Quit
    ensures var s := Handler(r, batch); var k := if |batch| < QSIZE - r.nqueue then |batch| else QSIZE - r.nqueue;
      && s.arrived == r.arrived + batch[..k] && s.nqueue == r.nqueue + k && s.echoed == r.echoed && s.iget == r.iget
      && s.pc == if r.nqueue + |batch| >= QSIZE then Quit else r.pc
    decreases |batch|
  {
    if r.nqueue >= QSIZE {
      assert r.arrived + batch[..0] == r.arrived;
    } else if batch == [] {
      assert r.arrived + batch[..0] == r.arrived;
    } else {
      var room := QSIZE - r.nqueue;
      var k := if |batch| < room then |batch| else room;
      HandlerReads(Stored(r, batch[0]), batch[1..]);
      assert [batch[0]] + batch[1..][..k - 1] == batch[..k];
      assert r.arrived + [batch[0]] + batch[1..][..k - 1] == r.arrived + batch[..k];
    }
  }

  /** A signal is served where it is let through, and is without effect elsewhere. */
  lemma SignalIs(r: Ring, batch: seq<Datagram>)
    requires Shape(r)
    ensures Step(r, Signal(batch)) == if Unmasked(r) then Handler(r, batch) else r
  {
  }

  /** The main loop goes round its six points in order, and waits at the first while
      nothing is queued.  It sends between `Sending` and `Sent`, moves to the next slot after
      that, and counts the datagram out last. */
  lemma MainIs(r: Ring)
    requires Shape(r)
    ensures var s := Step(r, Main);
      && s.dg == r.dg && s.iput == r.iput && s.arrived == r.arrived
      && s.echoed == r.echoed + (if r.pc == Sending then [r.dg[r.iget]] else [])
      && (s.iget == if r.pc == Sent then Advance(r.iget) else r.iget)
      && (s.nqueue == if r.pc == Blocked then r.nqueue - 1 else r.nqueue)
      && (r.pc == Waiting ==> (s.pc == Unblocked <==> r.nqueue != 0) && (s.pc == Waiting <==> r.nqueue == 0))
      && (s.pc == Sending <==> r.pc == Unblocked) && (s.pc == Sent <==> r.pc == Sending)
      && (s.pc == Advanced <==> r.pc == Sent) && (s.pc == Blocked <==> r.pc == Advanced)
      && (r.pc == Blocked ==> s.pc == Waiting) && (s.pc == Quit <==> r.pc == Quit)
  {
  }

  // ----- everything is echoed -----

  predicate OnlyMain(es: seq<Event>) { forall i | 0 <= i < |es| :: es[i] == Main }

  lemma OneMore(r: Ring, es: seq<Event>, e: Event)
    requires IsStart(r)
    ensures Run(r, es + [e]) == Step(Run(r, es), e)
  {
    assert (es + [e])[..|es|] == es;
  }

  /** Steps left until the loop waits again. */
  function ToWaiting(pc: Pc): nat {
    match pc
    case Waiting => 0
    case Unblocked => 5
    case Sending => 4
    case Sent => 3
    case Advanced => 2
    case Blocked => 1
    case Quit => 0
  }

  /** Steps left until all that has arrived is echoed and the loop waits. */
  function StepsLeft(r: Ring): int {
    ToWaiting(r.pc) + 6 * (r.nqueue - if r.pc == Waiting || r.pc == Quit then 0 else 1)
  }

  lemma StepsGoDown(r: Ring)
    requires Inv(r) && r.pc != Quit && (r.pc != Waiting || r.nqueue > 0)
    ensures 0 <= StepsLeft(Step(r, Main)) == StepsLeft(r) - 1
    ensures Step(r, Main).pc != Quit
  {
    MainIs(r);
  }

  /** After any run that has not overflowed, the main loop alone echoes all that has
      arrived, each datagram in six steps, and then waits. */
  lemma {:induction false} EverythingIsEchoed(r: Ring, es: seq<Event>) returns (more: seq<Event>)
    requires IsStart(r) && Run(r, es).pc != Quit
    ensures OnlyMain(more) && |more| == StepsLeft(Run(r, es))
    ensures var s := Run(r, es + more);
      s.echoed == s.arrived == Run(r, es).arrived && s.pc == Waiting && s.nqueue == 0
    decreases StepsLeft(Run(r, es))
  {
    var s := Run(r, es);
    EchoesInOrder(r, es);
    if s.pc == Waiting && s.nqueue == 0 {
      more := [];
      AndNone(es);
    } else {
      OneMore(r, es, Main);
      MainIs(s);
      StepsGoDown(s);
      hide Run, Inv, StepsLeft, Step;
      var rest := EverythingIsEchoed(r, es + [Main]);
      more := [Main] + rest;
      Assoc(es, [Main], rest);
    }
  }
}
