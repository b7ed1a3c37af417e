/** What each turn of the preforked server does, and that left to itself it serves every
    connection it has accepted and has all its children free again. */
module PreforkProgress {
  import opened Common
  import opened Prefork

  // ----- what each turn does -----

  /** `select` asks for a new connection only while a child is free, and otherwise returns
      when a child has reported. */
  lemma SelectIs(s: State, pending: bool)
    requires |s.tokens| == |s.status| && s.parent == Selecting
    ensures var t := Step(s, ParentTurn(pending)); var ready := ReadyChildren(s.tokens);
      && t == s.(parent := t.parent)
      && (t.parent == Accepting(ready, |ready| + 1) <==> pending && s.navail > 0)
      && (t.parent == Scanning(0, ready, |ready|) <==>
            !(pending && s.navail > 0) && exists i :: 0 <= i < |s.tokens| && s.tokens[i] == ReadyByte)
      && (t.parent == Selecting <==>
            !(pending && s.navail > 0) && forall i | 0 <= i < |s.tokens| :: s.tokens[i] != ReadyByte)
  {
    var ready := ReadyChildren(s.tokens);
    if i :| 0 <= i < |s.tokens| && s.tokens[i] == ReadyByte {
      assert i in ready;
    }
  }

  /** `t` is `s` once the accepted connection is on its way to child `i`, the first marked
      free, which is marked busy; the parent goes on to the children that had reported, if
      there were any. */
  ghost predicate GivenTo(s: State, i: nat, t: State)
    requires |s.tokens| == |s.status| && s.parent.Accepting?
  {
    var rset, left := s.parent.rset, s.parent.nsel - 1;
    && i < |s.status| && s.status[i] == 0 && (forall j | 0 <= j < i :: s.status[j] != 0)
    && t == State(s.status[i := 1], s.navail - 1, if left == 0 then Selecting else Scanning(0, rset, left),
                  s.tokens[i := InTransit(|s.accepted|)], s.accepted + [i], s.served)
  }

  /** An accepted connection is given to a child; with none marked free the parent gives up. */
  lemma AcceptIs(s: State)
    requires |s.tokens| == |s.status| && s.parent.Accepting?
    ensures var t := Step(s, ParentTurn(false));
      if forall i | 0 <= i < |s.status| :: s.status[i] != 0 then t == s.(parent := NoAvailableChildren)
      else exists i: nat :: GivenTo(s, i, t)
  {
    var i := FirstFree(s.status, 0);
    if i < |s.status| {
      assert GivenTo(s, i, Step(s, ParentTurn(false)));
    }
  }

  /** The loop over the children takes them in order, reads the ready byte of each that
      select reported, marks it free, and stops after as many; a child that was reported and
      has no byte must have ended. */
  lemma ScanIs(s: State)
    requires |s.tokens| == |s.status| && s.parent.Scanning?
    ensures var t := Step(s, ParentTurn(false)); var i, rset, left := s.parent.i, s.parent.rset, s.parent.nsel - 1;
      && (i >= |s.status| ==> t == s.(parent := Selecting))
      && (i < |s.status| && i !in rset ==> t == s.(parent := Scanning(i + 1, rset, s.parent.nsel)))
      && (i < |s.status| && i in rset && s.tokens[i] == ReadyByte ==>
            t == s.(status := s.status[i := 0], navail := s.navail + 1, tokens := s.tokens[i := Idle],
                    parent := if left == 0 then Selecting else Scanning(i + 1, rset, left)))
      && (i < |s.status| && i in rset && s.tokens[i] != ReadyByte ==> t == s.(parent := ChildTerminated))
  {
  }

  /** A parent that has given up does nothing more, and whether a connection is pending only
      matters to `select`. */
  lemma OtherTurns(s: State, pending: bool)
    requires |s.tokens| == |s.status|
    ensures s.parent == NoAvailableChildren || s.parent == ChildTerminated ==> Step(s, ParentTurn(pending)) == s
    ensures s.parent != Selecting ==> Step(s, ParentTurn(pending)) == Step(s, ParentTurn(false))
  {
  }

  /** A child takes the connection on its way to it, serves it, and reports; otherwise it
      waits.  The parent's own state is not touched. */
  lemma ChildIs(s: State, i: nat)
    requires |s.tokens| == |s.status|
    ensures var t := Step(s, ChildTurn(i));
      && t == s.(tokens := t.tokens, served := t.served)
      && (i >= |s.tokens| ==> t == s)
      && (i < |s.tokens| ==> t.tokens == s.tokens[i := t.tokens[i]])
      && (i < |s.tokens| && (s.tokens[i] == Idle || s.tokens[i] == ReadyByte) ==> t == s)
      && (i < |s.tokens| && s.tokens[i].InTransit? ==>
            t.tokens[i] == Serving(s.tokens[i].conn) && t.served == s.served)
      && (i < |s.tokens| && s.tokens[i].Serving? ==>
            t.tokens[i] == ReadyByte && t.served == s.served + {s.tokens[i].conn})
  {
  }

  lemma StartIs(n: nat)
    ensures var s := Start(n);
      && |s.status| == |s.tokens| == n == s.navail && s.parent == Selecting && s.accepted == [] && s.served == {}
      && forall i | 0 <= i < n :: s.status[i] == 0 && s.tokens[i] == Idle
  {
  }

  // ----- turns come to an end -----

  function Rank(t: Token): nat {
    match t
    case Idle => 0
    case ReadyByte => 1
    case Serving(_) => 2
    case InTransit(_) => 3
  }

  /** How far the parent is from waiting in select with nothing to read. */
  function ParentLeft(s: State): nat {
    match s.parent
    case Selecting => if ReadyChildren(s.tokens) == {} then 0 else |s.status| + 2
    case Scanning(i, _, _) => if i <= |s.status| then |s.status| + 1 - i else 0
    case _ => 0
  }

  /** Someone has something to do although no connection is pending. */
  predicate CanAct(s: State, e: Event) {
    match e
    case ChildTurn(i) => i < |s.tokens| && (s.tokens[i].InTransit? || s.tokens[i].Serving?)
    case ParentTurn(pending) =>
      !pending && (s.parent.Scanning? || (s.parent == Selecting && ReadyChildren(s.tokens) != {}))
  }

  lemma ActionCounts(s: State, e: Event)
    requires Inv(s) && CanAct(s, e)
    ensures var t := Step(s, e);
      || Total(t.tokens, Rank) < Total(s.tokens, Rank)
      || (Total(t.tokens, Rank) == Total(s.tokens, Rank) && ParentLeft(t) < ParentLeft(s))
    ensures !Step(s, e).parent.Accepting? || s.parent.Accepting?
    ensures Step(s, e).accepted == s.accepted
  {
    match e
    case ChildTurn(i) =>
      ChildIs(s, i);
      TotalUpdate(s.tokens, i, Step(s, e).tokens[i], Rank);
      hide Total, Step;
    case ParentTurn(_) =>
      if s.parent.Scanning? {
        ScanIs(s);
        ScanIsOk(s);
        if s.parent.i < |s.tokens| {
          TotalUpdate(s.tokens, s.parent.i, Idle, Rank);
        }
        hide Total, Step;
      } else {
        SelectIs(s, false);
        hide Total, Step;
      }
  }

  predicate NoneArrives(es: seq<Event>) { forall i | 0 <= i < |es| :: es[i].ParentTurn? ==> !es[i].pending }

  ghost predicate AtRest(s: State) { forall e :: !CanAct(s, e) }

  lemma OneMore(n: nat, es: seq<Event>, e: Event)
    ensures Run(n, es + [e]) == Step(Run(n, es), e)
  {
    assert (es + [e])[..|es|] == es;
  }

  lemma {:induction false} ComesToRest(n: nat, es: seq<Event>) returns (more: seq<Event>)
    requires !Run(n, es).parent.Accepting?
    ensures NoneArrives(more) && AtRest(Run(n, es + more)) && !Run(n, es + more).parent.Accepting?
    ensures Run(n, es + more).accepted == Run(n, es).accepted
    decreases Total(Run(n, es).tokens, Rank), ParentLeft(Run(n, es))
  {
    var s := Run(n, es);
    if e :| CanAct(s, e) {
      EveryRunIsOk(n, es);
      OneMore(n, es, e);
      ActionCounts(s, e);
      assert e.ParentTurn? ==> !e.pending;
      hide *;
      var rest := ComesToRest(n, es + [e]);
      more := [e] + rest;
      NoneArrivesFirst(e, rest);
      Assoc(es, [e], rest);
    } else {
      more := [];
      AndNone(es);
    }
  }

  lemma NoneArrivesFirst(e: Event, rest: seq<Event>)
    requires NoneArrives(rest) && (e.ParentTurn? ==> !e.pending)
    ensures NoneArrives([e] + rest)
  {
  }

  // ----- and then everything is served -----

  /** When nobody has anything to do, every child is free, and every connection accepted has
      been served. */
  lemma AtRestAllIsServed(s: State)
    requires Inv(s) && AtRest(s) && !s.parent.Accepting?
    ensures s.parent == Selecting && s.navail == |s.status| == |s.tokens|
    ensures forall i | 0 <= i < |s.tokens| :: s.tokens[i] == Idle && s.status[i] == 0
    ensures forall c: nat :: c in s.served <==> c < |s.accepted|
  {
    assert !CanAct(s, ParentTurn(false));
    forall i | 0 <= i < |s.tokens| ensures s.tokens[i] == Idle {
      assert !CanAct(s, ChildTurn(i));
      assert s.tokens[i] == ReadyByte ==> i in ReadyChildren(s.tokens);
    }
    forall c: nat ensures c in s.served <==> c < |s.accepted| {
      assert c < |s.accepted| ==> c in s.served || Holding(s.tokens[s.accepted[c]], c);
    }
    assert s.status == seq(|s.status|, _ => 0);
    AllFree(|s.status|);
  }

  /** A connection that has been taken from the queue is handed over. */
  lemma HandsOver(n: nat, es: seq<Event>) returns (first: seq<Event>)
    ensures NoneArrives(first) && !Run(n, es + first).parent.Accepting?
    ensures var s, t := Run(n, es), Run(n, es + first);
      s.accepted <= t.accepted && |t.accepted| <= |s.accepted| + 1
  {
    first := [];
    assert es + first == es;
    if Run(n, es).parent.Accepting? {
      first := [ParentTurn(false)];
      EveryRunIsOk(n, es);
      OneMore(n, es, first[0]);
      AcceptIsOk(Run(n, es));
    }
  }

  /** After any run, with no more connections arriving, parent and children can finish:
      every connection accepted by then is served, by the child it was given to, and all
      children are free. */
  lemma EverythingIsServed(n: nat, es: seq<Event>) returns (more: seq<Event>)
    ensures NoneArrives(more)
    ensures var s, t := Run(n, es), Run(n, es + more);
      && s.accepted <= t.accepted && |t.accepted| <= |s.accepted| + 1
      && (forall c: nat :: c in t.served <==> c < |t.accepted|)
      && t.parent == Selecting && t.navail == n == |t.tokens| && forall i | 0 <= i < n :: t.tokens[i] == Idle
  {
    var first := HandsOver(n, es);
    var rest := ComesToRest(n, es + first);
    more := first + rest;
    Assoc(es, first, rest);
    EveryRunIsOk(n, es + more);
    hide Run, Inv, AtRest;
    AtRestAllIsServed(Run(n, es + more));
    SizeStays(n, es + more);
  }

  lemma {:induction false} SizeStays(n: nat, es: seq<Event>)
    ensures |Run(n, es).status| == n
  {
    if es == [] {
    } else {
      SizeStays(n, es[..|es| - 1]);
    }
  }
}
