/** The signal-driven echo server: a ring of datagrams filled by the SIGIO handler
    and emptied by the main loop, with the signal masked where the program masks
    it. */
module DatagramRing {

  const QSIZE := 8

  datatype Datagram = Datagram(data: seq<int>, from: int)

  /** Where the main loop is.  SIGIO is blocked in `Waiting` (but for the suspend)
      and `Blocked`. */
  datatype Pc = Waiting | Unblocked | Sending | Sent | Advanced | Blocked | Quit

  /** `arrived` and `echoed` are logs of what was read and sent. */
  datatype Ring = Ring(dg: seq<Datagram>, iget: nat, iput: nat, nqueue: int, pc: Pc,
                       arrived: seq<Datagram>, echoed: seq<Datagram>)

  function Advance(i: nat): nat { if i + 1 >= QSIZE then 0 else i + 1 }

  /** `sig_io` with `batch` waiting in the socket: it checks for room before every
      read, and so also before the read that finds nothing. */
  function Handler(r: Ring, batch: seq<Datagram>): (s: Ring)
    requires |r.dg| == QSIZE && r.iput < QSIZE
    ensures |s.dg| == QSIZE && s.iput < QSIZE && s.iget == r.iget
    decreases |batch|
  {
    if r.nqueue >= QSIZE then r.(pc := Quit)
    else if batch == [] then r
    else Handler(Stored(r, batch[0]), batch[1..])
  }

  /** One datagram read into the ring. */
  function Stored(r: Ring, d: Datagram): (s: Ring)
    requires |r.dg| == QSIZE && r.iput < QSIZE
    ensures |s.dg| == QSIZE && s.iput < QSIZE && s.iget == r.iget
  {
    r.(dg := r.dg[r.iput := d], nqueue := r.nqueue + 1, iput := Advance(r.iput), arrived := r.arrived + [d])
  }

  /** The handler runs only where the signal is not blocked. */
  predicate Interruptible(r: Ring) {
    match r.pc
    case Waiting => r.nqueue == 0
    case Blocked => false
    case Quit => false
    case _ => true
  }

  /** The main loop's next step, if it can take one. */
  function MainStep(r: Ring): Ring
    requires |r.dg| == QSIZE && r.iget < QSIZE
  {
    match r.pc
    case Waiting => if r.nqueue == 0 then r else r.(pc := Unblocked)
    case Unblocked => r.(pc := Sending)
    case Sending => r.(pc := Sent, echoed := r.echoed + [r.dg[r.iget]])
    case Sent => r.(pc := Advanced, iget := Advance(r.iget))
    case Advanced => r.(pc := Blocked)
    case Blocked => r.(pc := Waiting, nqueue := r.nqueue - 1)
    case Quit => r
  }

  datatype Event = Main | Signal(batch: seq<Datagram>)

  predicate Shape(r: Ring) { |r.dg| == QSIZE && r.iget < QSIZE && r.iput < QSIZE }

  function Step(r: Ring, e: Event): (s: Ring)
    requires Shape(r)
    ensures Shape(s)
  {
    match e
    case Main => MainStep(r)
    case Signal(batch) => if Interruptible(r) then Handler(r, batch) else r
  }

  predicate IsStart(r: Ring) {
    |r.dg| == QSIZE && r.iget == r.iput == r.nqueue == 0 && r.pc == Waiting && r.arrived == r.echoed == []
  }

  function Run(r: Ring, es: seq<Event>): (s: Ring)
    requires IsStart(r)
    ensures Shape(s)
  {
    if es == [] then r else Step(Run(r, es[..|es| - 1]), es[|es| - 1])
  }

  // ----- invariant -----

  /** Datagrams echoed whose slot `iget` has not yet passed. */
  function Behind(r: Ring): nat { if r.pc == Sent then 1 else 0 }

  /** Datagrams echoed that `nqueue` still counts. */
  function Overcount(r: Ring): nat { if r.pc == Sent || r.pc == Advanced || r.pc == Blocked then 1 else 0 }

  /** The datagrams echoed are the first to have arrived, the rest are in the ring
      in order from the slot of the first one, and the indices say so. */
  ghost predicate InRing(r: Ring) {
    && Shape(r)
    && |r.echoed| <= |r.arrived| && r.echoed == r.arrived[..|r.echoed|]
    && r.nqueue == |r.arrived| - |r.echoed| + Overcount(r) && r.nqueue <= QSIZE
    && r.iput == |r.arrived| % QSIZE
    && Behind(r) <= |r.echoed| && r.iget == (|r.echoed| - Behind(r)) % QSIZE
    && (forall k | |r.echoed| <= k < |r.arrived| :: r.dg[k % QSIZE] == r.arrived[k])
    && (r.pc == Unblocked || r.pc == Sending ==> r.nqueue > 0)
  }

  ghost predicate Inv(r: Ring) {
    Shape(r) && (r.pc != Quit ==> InRing(r) && r.nqueue < QSIZE)
  }

  lemma ModNext(n: nat)
    ensures Advance(n % QSIZE) == (n + 1) % QSIZE
  {
  }

  lemma OtherSlot(k: nat, n: nat)
    requires k < n < k + QSIZE
    ensures k % QSIZE != n % QSIZE
  {
  }

  /** One datagram stored does not disturb those waiting, nor the one being sent. */
  lemma StoreKeepsRing(r: Ring, d: Datagram)
    requires InRing(r) && r.nqueue < QSIZE
    ensures InRing(Stored(r, d))
  {
    ModNext(|r.arrived|);
    forall k | |r.echoed| <= k < |r.arrived| ensures k % QSIZE != r.iput {
      OtherSlot(k, |r.arrived|);
    }
  }

  /** The handler quits exactly when the ring would be full once it has read
      everything: the eighth slot is never usable. */
  lemma {:induction false} HandlerKeepsInv(r: Ring, batch: seq<Datagram>)
    requires InRing(r) && r.pc != Quit
    ensures var s := Handler(r, batch);
      && Inv(s)
      && (s.pc == Quit <==> r.nqueue + |batch| >= QSIZE)
      && (s.pc != Quit ==> s.pc == r.pc && s.arrived == r.arrived + batch && s.echoed == r.echoed)
    decreases |batch|
  {
    assert |r.dg| == QSIZE && r.iput < QSIZE;
    hide InRing, Handler, Stored, Inv;
    if r.nqueue >= QSIZE || batch == [] {
      HandlerStops(r, batch);
    } else {
      HandlerGoesOn(r, batch);
      StoreKeepsRing(r, batch[0]);
      HandlerKeepsInv(Stored(r, batch[0]), batch[1..]);
    }
  }

  lemma HandlerStops(r: Ring, batch: seq<Datagram>)
    requires InRing(r) && (r.nqueue >= QSIZE || batch == [])
    ensures Handler(r, batch) == if r.nqueue >= QSIZE then r.(pc := Quit) else r
    ensures Inv(Handler(r, batch)) && r.arrived + [] == r.arrived
  {
  }

  lemma HandlerGoesOn(r: Ring, batch: seq<Datagram>)
    requires |r.dg| == QSIZE && r.iput < QSIZE && r.nqueue < QSIZE && batch != []
    ensures var s := Stored(r, batch[0]);
      && Handler(r, batch) == Handler(s, batch[1..])
      && s.nqueue == r.nqueue + 1 && s.pc == r.pc && s.echoed == r.echoed
      && s.arrived + batch[1..] == r.arrived + batch
  {
    assert r.arrived + [batch[0]] + batch[1..] == r.arrived + batch;
  }

  lemma StepKeepsInv(r: Ring, e: Event)
    requires Inv(r)
    ensures Inv(Step(r, e))
  {
    if r.pc != Quit {
      match e
      case Main =>
        ModNext(|r.echoed| - Behind(r));
      case Signal(batch) =>
        if Interruptible(r) {
          HandlerKeepsInv(r, batch);
        }
    }
  }

  // ----- what it means -----

  /** Until an overflow quit, datagrams are echoed once each, in arrival order and
      to their own sender, whenever the signal strikes; and never are QSIZE
      waiting. */
  lemma {:induction false} EchoesInOrder(r: Ring, es: seq<Event>)
    requires IsStart(r)
    ensures var s := Run(r, es);
      && Inv(s)
      && (s.pc != Quit ==> s.echoed <= s.arrived && |s.arrived| - |s.echoed| < QSIZE)
  {
    if es == [] {
    } else {
      EchoesInOrder(r, es[..|es| - 1]);
      StepKeepsInv(Run(r, es[..|es| - 1]), es[|es| - 1]);
    }
  }

  /** `iput` is `nqueue` slots past `iget`, less one between the advance of `iget`
      and the decrement of `nqueue`. */
  lemma IndicesAgree(r: Ring, es: seq<Event>)
    requires IsStart(r) && Run(r, es).pc != Quit
    ensures var s := Run(r, es);
      var ahead := s.nqueue - if s.pc == Advanced || s.pc == Blocked then 1 else 0;
      0 <= ahead && s.iput == (s.iget + ahead) % QSIZE
  {
    EchoesInOrder(r, es);
    var s := Run(r, es);
    ModAdd(|s.echoed| - Behind(s), |s.arrived|);
  }

  lemma ModAdd(a: nat, b: nat)
    requires a <= b
    ensures (a % QSIZE + (b - a)) % QSIZE == b % QSIZE
  {
  }

  /** The handler never writes the slot the main loop is about to send or is
      sending. */
  lemma SlotBeingSentIsSafe(r: Ring, es: seq<Event>, batch: seq<Datagram>)
    requires IsStart(r) && Run(r, es).pc in {Unblocked, Sending} && Handler(Run(r, es), batch).pc != Quit
    ensures var s := Run(r, es);
      |s.echoed| < |s.arrived| && Handler(s, batch).dg[s.iget] == s.dg[s.iget] == s.arrived[|s.echoed|]
  {
    EchoesInOrder(r, es);
    var s := Run(r, es);
    HandlerKeepsInv(s, batch);
    assert Handler(s, batch).arrived[|s.echoed|] == s.arrived[|s.echoed|];
  }

  // ----- the program's own form -----

  class DgEcho {
    const dg: array<Datagram>
    var iget: nat
    var iput: nat
    var nqueue: int
    var pc: Pc
    ghost var arrived: seq<Datagram>
    ghost var echoed: seq<Datagram>

    ghost function State(): Ring
      reads this, dg
    {
      Ring(dg[..], iget, iput, nqueue, pc, arrived, echoed)
    }

    constructor (blank: Datagram)
      ensures IsStart(State()) && fresh(dg)
    {
      dg := new Datagram[QSIZE](_ => blank);
      iget, iput, nqueue, pc := 0, 0, 0, Waiting;
      arrived, echoed := [], [];
    }

    /** The SIGIO handler; `batch` is what the socket holds. */
    method SigIo(batch: seq<Datagram>)
      requires Shape(State())
      modifies this, dg
      ensures State() == Handler(old(State()), batch) && Shape(State())
    {
      var nread := 0;
      while true
        invariant nread <= |batch| && Shape(State())
        invariant Handler(State(), batch[nread..]) == Handler(old(State()), batch)
        decreases |batch| - nread
      {
        if nqueue >= QSIZE {
          pc := Quit;
          return;
        }
        if nread == |batch| {
          return;
        }
        assert batch[nread..][0] == batch[nread] && batch[nread..][1..] == batch[nread + 1..];
        ghost var before := State();
        dg[iput] := batch[nread];
        arrived := arrived + [batch[nread]];
        nread := nread + 1;
        nqueue := nqueue + 1;
        iput := if iput + 1 >= QSIZE then 0 else iput + 1;
        assert State().dg == before.dg[before.iput := batch[nread - 1]];
      }
    }

    /** The next step of the main loop; the datagram sent, if this step sends. */
    method MainLoop() returns (sent: seq<Datagram>)
      requires Shape(State())
      modifies this
      ensures State() == MainStep(old(State())) && Shape(State())
      ensures State().echoed == old(State()).echoed + sent
    {
      sent := [];
      match pc
      case Waiting =>
        if nqueue != 0 {
          pc := Unblocked;
        }
      case Unblocked => pc := Sending;
      case Sending =>
        sent := [dg[iget]];
        echoed := echoed + sent;
        pc := Sent;
      case Sent =>
        iget := if iget + 1 >= QSIZE then 0 else iget + 1;
        pc := Advanced;
      case Advanced => pc := Blocked;
      case Blocked =>
        nqueue := nqueue - 1;
        pc := Waiting;
      case Quit =>
    }
  }
}
