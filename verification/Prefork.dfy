/** The preforked server: a parent that hands each connection to an idle child and
    hears back one byte when the child is idle again. */
module Prefork {

  /** Where a child's turn stands: the child waits, a connection is on its way to
      it, it serves one, or its ready byte is unread. */
  datatype Token = Idle | InTransit(conn: nat) | Serving(conn: nat) | ReadyByte

  /** The parent waits in `select`, has a new connection to hand out, or is looking
      for ready bytes from child `i` on.  `rset` and `nsel` are what select returned,
      less what has been dealt with. */
  datatype Parent =
    | Selecting
    | Accepting(rset: set<nat>, nsel: int)
    | Scanning(i: nat, rset: set<nat>, nsel: int)
    | NoAvailableChildren
    | ChildTerminated

  /** `status` and `navail` are the parent's; `accepted` logs the child each
      connection was given to, `served` the connections finished. */
  datatype State = State(status: seq<int>, navail: int, parent: Parent,
                         tokens: seq<Token>, accepted: seq<nat>, served: set<nat>)

  function Start(nchildren: nat): State {
    State(seq(nchildren, _ => 0), nchildren, Selecting, seq(nchildren, _ => Idle), [], {})
  }

  /** The children with something for the parent to read. */
  function ReadyChildren(tokens: seq<Token>): set<nat> {
    set i: nat | i < |tokens| && tokens[i] == ReadyByte
  }

  function FirstFree(status: seq<int>, i: nat): (k: nat)
    requires i <= |status|
    ensures i <= k <= |status|
    ensures k < |status| ==> status[k] == 0
    ensures forall j | i <= j < k :: status[j] != 0
    decreases |status| - i
  {
    if i == |status| || status[i] == 0 then i else FirstFree(status, i + 1)
  }

  /** `select` returns every ready descriptor; the listening one is asked for only
      while a child is available. */
  function Select(s: State, pending: bool): State {
    var rset := ReadyChildren(s.tokens);
    if pending && s.navail > 0 then s.(parent := Accepting(rset, |rset| + 1))
    else if rset != {} then s.(parent := Scanning(0, rset, |rset|))
    else s
  }

  /** The connection goes to the first child marked free. */
  function Accept(s: State): State
    requires s.parent.Accepting? && |s.tokens| == |s.status|
  {
    var i := FirstFree(s.status, 0);
    if i == |s.status| then s.(parent := NoAvailableChildren)
    else
      State(s.status[i := 1], s.navail - 1,
            if s.parent.nsel - 1 == 0 then Selecting else Scanning(0, s.parent.rset, s.parent.nsel - 1),
            s.tokens[i := InTransit(|s.accepted|)], s.accepted + [i], s.served)
  }

  /** One turn of the loop over the children. */
  function Scan(s: State): State
    requires s.parent.Scanning? && |s.tokens| == |s.status|
  {
    var i := s.parent.i;
    if i >= |s.status| then s.(parent := Selecting)
    else if i !in s.parent.rset then s.(parent := s.parent.(i := i + 1))
    else if s.tokens[i] != ReadyByte then s.(parent := ChildTerminated)
    else
      s.(status := s.status[i := 0], navail := s.navail + 1, tokens := s.tokens[i := Idle],
         parent := if s.parent.nsel - 1 == 0 then Selecting else Scanning(i + 1, s.parent.rset, s.parent.nsel - 1))
  }

  /** A child receives its descriptor; later it closes it and reports ready. */
  function ChildStep(s: State, i: nat): State
    requires i < |s.tokens|
  {
    match s.tokens[i]
    case InTransit(c) => s.(tokens := s.tokens[i := Serving(c)])
    case Serving(c) => s.(tokens := s.tokens[i := ReadyByte], served := s.served + {c})
    case _ => s
  }

  datatype Event = ParentTurn(pending: bool) | ChildTurn(i: nat)

  function Step(s: State, e: Event): State
    requires |s.tokens| == |s.status|
  {
    match e
    case ChildTurn(i) => if i < |s.tokens| then ChildStep(s, i) else s
    case ParentTurn(pending) =>
      match s.parent
      case Selecting => Select(s, pending)
      case Accepting(_, _) => Accept(s)
      case Scanning(_, _, _) => Scan(s)
      case _ => s
  }

  function Run(nchildren: nat, es: seq<Event>): (s: State)
    ensures |s.tokens| == |s.status|
  {
    if es == [] then Start(nchildren) else Step(Run(nchildren, es[..|es| - 1]), es[|es| - 1])
  }

  // ----- invariant -----

  function Free(status: seq<int>): set<nat> { set i: nat | i < |status| && status[i] == 0 }

  predicate Holding(t: Token, c: nat) { t == InTransit(c) || t == Serving(c) }

  /** The children of `rset` still to be looked at from `i` on. */
  function Rest(rset: set<nat>, i: nat): set<nat> { set j | j in rset && j >= i }

  ghost predicate ParentOk(parent: Parent, navail: int, tokens: seq<Token>) {
    match parent
    case Selecting => true
    case Accepting(rset, nsel) =>
      && navail > 0 && nsel == |rset| + 1
      && forall j | j in rset :: j < |tokens| && tokens[j] == ReadyByte
    case Scanning(i, rset, nsel) =>
      && nsel == |Rest(rset, i)| > 0
      && forall j | j in rset && j >= i :: j < |tokens| && tokens[j] == ReadyByte
    case _ => false
  }

  /** The table marks a child free exactly when it is idle. */
  ghost predicate TableOk(status: seq<int>, tokens: seq<Token>) {
    |tokens| == |status| && forall i | 0 <= i < |status| :: status[i] == 0 <==> tokens[i] == Idle
  }

  /** Every connection accepted is with the one child it was given to, or served. */
  ghost predicate ConnsOk(tokens: seq<Token>, accepted: seq<nat>, served: set<nat>) {
    && (forall c | 0 <= c < |accepted| :: accepted[c] < |tokens| && (c in served || Holding(tokens[accepted[c]], c)))
    && (forall c | c in served :: c < |accepted|)
    && (forall i, c: nat {:trigger Holding(tokens[i], c)} | 0 <= i < |tokens| && Holding(tokens[i], c) ::
          c < |accepted| && accepted[c] == i && c !in served)
  }

  ghost predicate Inv(s: State) {
    && ParentOk(s.parent, s.navail, s.tokens)
    && TableOk(s.status, s.tokens) && s.navail == |Free(s.status)|
    && ConnsOk(s.tokens, s.accepted, s.served)
  }

  /** A child's token changes without touching other connections: whatever it held
      it still holds or has just served. */
  lemma TokenChanges(tokens: seq<Token>, accepted: seq<nat>, served: set<nat>, i: nat, t: Token, served': set<nat>)
    requires ConnsOk(tokens, accepted, served) && i < |tokens|
    requires forall c: nat :: Holding(t, c) <==> Holding(tokens[i], c) && c !in served'
    requires forall c: nat :: c in served' <==> c in served || (Holding(tokens[i], c) && !Holding(t, c))
    ensures ConnsOk(tokens[i := t], accepted, served')
  {
    var after := tokens[i := t];
    forall c | 0 <= c < |accepted|
      ensures accepted[c] < |after| && (c in served' || Holding(after[accepted[c]], c))
    {
      assert c in served || Holding(tokens[accepted[c]], c);
    }
    forall c | c in served' ensures c < |accepted| {
      assert c in served || Holding(tokens[i], c);
    }
    forall j, c: nat {:trigger Holding(after[j], c)} | 0 <= j < |after| && Holding(after[j], c)
      ensures c < |accepted| && accepted[c] == j && c !in served'
    {
      assert Holding(tokens[j], c);
      assert Holding(tokens[i], c) ==> accepted[c] == i;
    }
  }

  /** A new connection goes to an idle child. */
  lemma HandedOver(tokens: seq<Token>, accepted: seq<nat>, served: set<nat>, i: nat)
    requires ConnsOk(tokens, accepted, served) && i < |tokens| && tokens[i] == Idle
    ensures ConnsOk(tokens[i := InTransit(|accepted|)], accepted + [i], served)
  {
    var n, after, given := |accepted|, tokens[i := InTransit(|accepted|)], accepted + [i];
    forall c | 0 <= c < |given|
      ensures given[c] < |after| && (c in served || Holding(after[given[c]], c))
    {
      if c < n {
        assert given[c] == accepted[c];
        assert c in served || Holding(tokens[accepted[c]], c);
        assert !Holding(tokens[i], c);
      } else {
        assert Holding(after[i], n);
      }
    }
    forall j, c: nat {:trigger Holding(after[j], c)} | 0 <= j < |after| && Holding(after[j], c)
      ensures c < |given| && given[c] == j && c !in served
    {
      if j != i {
        assert Holding(tokens[j], c);
        assert given[c] == accepted[c];
      } else {
        assert c == n && n !in served;
      }
    }
    assert forall c | c in served :: c < |given|;
  }

  /** A child's own steps, and its becoming idle, move no other connection. */
  lemma MovedOn(tokens: seq<Token>, accepted: seq<nat>, served: set<nat>, i: nat)
    requires ConnsOk(tokens, accepted, served) && i < |tokens|
    ensures match tokens[i]
      case InTransit(c) => ConnsOk(tokens[i := Serving(c)], accepted, served)
      case Serving(c) => ConnsOk(tokens[i := ReadyByte], accepted, served + {c})
      case _ => ConnsOk(tokens[i := Idle], accepted, served)
  {
    match tokens[i]
    case InTransit(c) =>
      assert Holding(tokens[i], c);
      TokenChanges(tokens, accepted, served, i, Serving(c), served);
    case Serving(c) =>
      TokenChanges(tokens, accepted, served, i, ReadyByte, served + {c});
    case _ =>
      TokenChanges(tokens, accepted, served, i, Idle, served);
  }

  lemma {:induction false} AllFree(n: nat)
    ensures |Free(seq(n, _ => 0))| == n
  {
    if n == 0 {
    } else {
      AllFree(n - 1);
      assert Free(seq(n, _ => 0)) == Free(seq(n - 1, _ => 0)) + {n - 1};
    }
  }

  lemma StartIsOk(n: nat)
    ensures Inv(Start(n))
  {
    AllFree(n);
  }

  lemma MarkedBusy(status: seq<int>, i: nat)
    requires i < |status| && status[i] == 0
    ensures |Free(status[i := 1])| == |Free(status)| - 1
  {
    assert Free(status[i := 1]) == Free(status) - {i};
  }

  lemma MarkedFree(status: seq<int>, i: nat)
    requires i < |status| && status[i] != 0
    ensures |Free(status[i := 0])| == |Free(status)| + 1
  {
    assert Free(status[i := 0]) == Free(status) + {i};
  }

  lemma SomeFree(status: seq<int>)
    requires |Free(status)| > 0
    ensures FirstFree(status, 0) < |status|
  {
    var k :| k in Free(status);
  }

  lemma RestNext(rset: set<nat>, i: nat)
    ensures |Rest(rset, i)| == |Rest(rset, i + 1)| + if i in rset then 1 else 0
  {
    if i in rset {
      assert Rest(rset, i) == Rest(rset, i + 1) + {i};
    } else {
      assert Rest(rset, i) == Rest(rset, i + 1);
    }
  }

  lemma RestNone(rset: set<nat>, i: nat, j: nat)
    requires |Rest(rset, i)| == 0 && j in rset
    ensures j < i
  {
    assert j >= i <==> j in Rest(rset, i);
  }

  lemma RestSome(rset: set<nat>, i: nat) returns (j: nat)
    requires |Rest(rset, i)| > 0
    ensures j in rset && j >= i
  {
    j :| j in Rest(rset, i);
  }

  lemma SelectIsOk(s: State, pending: bool)
    requires Inv(s) && s.parent == Selecting
    ensures Inv(Select(s, pending))
  {
    hide ConnsOk, TableOk, Free;
    WholeRest(ReadyChildren(s.tokens));
  }

  lemma AcceptIsOk(s: State)
    requires Inv(s) && s.parent.Accepting?
    ensures Inv(Accept(s)) && FirstFree(s.status, 0) < |s.status|
  {
    hide Rest, Free, ConnsOk;
    SomeFree(s.status);
    var i := FirstFree(s.status, 0);
    MarkedBusy(s.status, i);
    HandedOver(s.tokens, s.accepted, s.served, i);
    assert i !in s.parent.rset;
    WholeRest(s.parent.rset);
  }

  lemma WholeRest(rset: set<nat>)
    ensures Rest(rset, 0) == rset
  {
  }

  lemma ScanIsOk(s: State)
    requires Inv(s) && s.parent.Scanning?
    ensures Inv(Scan(s)) && s.parent.i < |s.status|
  {
    hide Rest, Free, ConnsOk;
    var i, rset := s.parent.i, s.parent.rset;
    RestNext(rset, i);
    var some := RestSome(rset, i);
    if i in rset {
      MarkedFree(s.status, i);
      MovedOn(s.tokens, s.accepted, s.served, i);
    }
  }

  lemma ChildStepIsOk(s: State, i: nat)
    requires Inv(s) && i < |s.tokens|
    ensures Inv(ChildStep(s, i))
  {
    hide Rest, Free, ConnsOk;
    MovedOn(s.tokens, s.accepted, s.served, i);
  }

  /** What the handing over of connections keeps, whenever parent and children take
      their turns. */
  lemma {:induction false} EveryRunIsOk(nchildren: nat, es: seq<Event>)
    ensures Inv(Run(nchildren, es))
  {
    if es == [] {
      StartIsOk(nchildren);
    } else {
      EveryRunIsOk(nchildren, es[..|es| - 1]);
      var s := Run(nchildren, es[..|es| - 1]);
      match es[|es| - 1]
      case ChildTurn(i) =>
        if i < |s.tokens| {
          ChildStepIsOk(s, i);
        }
      case ParentTurn(pending) =>
        match s.parent
        case Selecting => SelectIsOk(s, pending);
        case Accepting(_, _) => AcceptIsOk(s);
        case Scanning(_, _, _) => ScanIsOk(s);
        case _ =>
    }
  }

  // ----- what it means -----

  /** The parent's table is right: free exactly when the child is idle, and as many
      as `navail` says.  Neither fatal report is ever made. */
  lemma TableIsRight(nchildren: nat, es: seq<Event>)
    ensures var s := Run(nchildren, es);
      && (forall i | 0 <= i < |s.status| :: s.status[i] == 0 <==> s.tokens[i] == Idle)
      && s.navail == |Free(s.status)|
      && s.parent != NoAvailableChildren && s.parent != ChildTerminated
  {
    EveryRunIsOk(nchildren, es);
  }

  /** Every connection accepted is served or held by exactly one child, the one it
      was given to, which was idle then; none is served twice. */
  lemma EachConnectionHasOneChild(nchildren: nat, es: seq<Event>, c: nat)
    requires c < |Run(nchildren, es).accepted|
    ensures var s := Run(nchildren, es);
      && s.accepted[c] < |s.tokens|
      && (forall i | 0 <= i < |s.tokens| :: Holding(s.tokens[i], c) <==> i == s.accepted[c] && c !in s.served)
  {
    EveryRunIsOk(nchildren, es);
  }

  lemma GivenOnlyToIdleChildren(nchildren: nat, es: seq<Event>)
    requires Run(nchildren, es).parent.Accepting?
    ensures var s := Run(nchildren, es); var t := Accept(s);
      |t.accepted| == |s.accepted| + 1 && t.accepted[|s.accepted|] < |s.tokens|
      && s.tokens[t.accepted[|s.accepted|]] == Idle && t.navail == s.navail - 1
  {
    EveryRunIsOk(nchildren, es);
    AcceptIsOk(Run(nchildren, es));
  }

  /** The loop over the children, until it is back in select. */
  function ScanAll(s: State): (t: State)
    requires |s.tokens| == |s.status|
    ensures |t.status| == |t.tokens| == |s.status|
    decreases if s.parent.Scanning? then 1 else 0, if s.parent.Scanning? then |s.status| - s.parent.i else 0
  {
    if s.parent.Scanning? then ScanAll(Scan(s)) else s
  }

  /** Child `j` is among those the loop has still to read. */
  predicate Due(s: State, j: nat) { s.parent.Scanning? && j in s.parent.rset && j >= s.parent.i }

  /** The loop reads the byte of every child that was ready, and of no other, though
      it stops as soon as `nsel` has run out. */
  lemma {:induction false} ScanReadsAll(s: State)
    requires Inv(s) && (s.parent.Scanning? || s.parent == Selecting)
    ensures var t := ScanAll(s);
      && Inv(t) && t.parent == Selecting
      && (forall j | 0 <= j < |s.tokens| :: t.tokens[j] == if Due(s, j) then Idle else s.tokens[j])
      && t.navail == s.navail + if s.parent.Scanning? then s.parent.nsel else 0
    decreases if s.parent.Scanning? then 1 else 0, if s.parent.Scanning? then |s.status| - s.parent.i else 0
  {
    if s.parent.Scanning? {
      var i, rset := s.parent.i, s.parent.rset;
      ScanIsOk(s);
      RestNext(rset, i);
      var next := Scan(s);
      if next.parent == Selecting {
        forall j: nat | j in rset ensures j <= i {
          RestNone(rset, i + 1, j);
        }
      }
      ScanReadsAll(next);
      assert forall j | 0 <= j < |s.tokens| && j != i :: Due(s, j) == Due(next, j);
    }
  }

  // ----- the program's own form -----

  /** The parent's table of children and its counter. */
  class ChildTable {
    const childStatus: array<int>
    const childCount: array<nat>
    var navail: int

    ghost predicate Is(s: State)
      reads this, childStatus
    {
      childStatus[..] == s.status && navail == s.navail && childCount.Length == childStatus.Length
    }

    constructor (nchildren: nat)
      ensures Is(Start(nchildren)) && fresh(childStatus) && fresh(childCount)
    {
      childStatus := new int[nchildren](_ => 0);
      childCount := new nat[nchildren](_ => 0);
      navail := nchildren;
    }

    /** Picks the child for a new connection and marks it busy; none is a fatal error. */
    method Assign(ghost s: State) returns (i: nat)
      requires Is(s) && s.parent.Accepting? && |s.tokens| == |s.status|
      modifies this, childStatus, childCount
      ensures i == FirstFree(s.status, 0)
      ensures if i == |s.status| then Is(s)
        else Is(Accept(s)) && childCount[..] == old(childCount[..])[i := old(childCount[i]) + 1]
    {
      i := 0;
      while i < childStatus.Length
        invariant i <= childStatus.Length && FirstFree(s.status, i) == FirstFree(s.status, 0)
      {
        if childStatus[i] == 0 {
          break;
        }
        i := i + 1;
      }
      if i == childStatus.Length {
        return;
      }
      childStatus[i] := 1;
      childCount[i] := childCount[i] + 1;
      navail := navail - 1;
    }

    /** The loop over the children in `rset`, `count` of which are ready. */
    method Collect(rset: set<nat>, count: int, ghost s: State)
      requires Is(s) && Inv(s) && s.parent == Scanning(0, rset, count)
      modifies this, childStatus
      ensures Is(ScanAll(s))
    {
      var i, nsel := 0, count;
      ghost var t := s;
      while i < childStatus.Length
        invariant 0 <= i <= childStatus.Length
        invariant Is(t) && Inv(t) && t.parent == Scanning(i, rset, nsel) && ScanAll(t) == ScanAll(s)
      {
        ScanIsOk(t);
        var done := false;
        if i in rset {
          childStatus[i] := 0;
          navail := navail + 1;
          nsel := nsel - 1;
          done := nsel == 0;
        }
        t := Scan(t);
        if done {
          return;
        }
        i := i + 1;
      }
      t := Scan(t);
    }
  }
}
