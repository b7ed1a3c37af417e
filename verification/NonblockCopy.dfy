/** The nonblocking client loop: standard input to the socket and the socket to
    standard output through two linear buffers, with a half close. */
module NonblockCopy {
  import opened Common

  const MAXLINE := 4096

  // ----- one buffer -----

  /** Bytes `optr` to `iptr` are waiting to be written. */
  datatype Buf = Buf(data: seq<Byte>, iptr: nat, optr: nat)

  ghost predicate BufOk(b: Buf) {
    && |b.data| == MAXLINE && b.optr <= b.iptr <= MAXLINE
    && (b.optr == b.iptr ==> b.iptr == 0)
  }

  function Held(b: Buf): seq<Byte>
    requires b.optr <= b.iptr <= |b.data|
  {
    b.data[b.optr..b.iptr]
  }

  /** Stores bytes just read. */
  function Fill(b: Buf, bytes: seq<Byte>): Buf
    requires |b.data| == MAXLINE && b.iptr + |bytes| <= MAXLINE
  {
    b.(data := b.data[..b.iptr] + bytes + b.data[b.iptr + |bytes|..], iptr := b.iptr + |bytes|)
  }

  /** Takes out bytes just written; an empty buffer starts over. */
  function Drain(b: Buf, n: nat): Buf {
    if b.optr + n == b.iptr then b.(iptr := 0, optr := 0) else b.(optr := b.optr + n)
  }

  // ----- the loop -----

  /** What `read` brings, of which it returns what there is room for; no bytes is
      end of file. */
  datatype ReadResult = Got(bytes: seq<Byte>) | ReadWouldBlock | ReadError

  /** How much `write` is willing to take, of which it takes what there is. */
  datatype WriteResult = Wrote(n: nat) | WriteWouldBlock | WriteError

  /** The environment of one turn of the loop. */
  datatype Env = Env(stdinReady: bool, sockReady: bool, sockWritable: bool, stdoutWritable: bool,
                     stdinRead: ReadResult, sockRead: ReadResult, stdoutWrite: WriteResult, sockWrite: WriteResult)

  datatype Status = Running | Returned | ServerTerminated | Failed

  /** `to` carries standard input to the socket, `fr` the socket to standard output.
      The rest are logs: bytes read and written, FINs sent, and whether any read
      was asked for no bytes. */
  datatype State = State(to: Buf, fr: Buf, stdineof: bool, status: Status,
                         fromStdin: seq<Byte>, toSock: seq<Byte>, fromSock: seq<Byte>, toStdout: seq<Byte>,
                         fins: nat, emptyReads: nat)

  predicate BufShape(b: Buf) { |b.data| == MAXLINE && b.optr <= b.iptr <= MAXLINE }

  predicate Shape(s: State) { BufShape(s.to) && BufShape(s.fr) }

  /** The read calls asked for no bytes. */
  function Asked(s: State, b: Buf): nat { if b.iptr == MAXLINE then s.emptyReads + 1 else s.emptyReads }

  function ReadStdin(s: State, r: ReadResult): (t: State)
    requires Shape(s)
    ensures Shape(t)
  {
    match r
    case ReadWouldBlock => s
    case ReadError => s.(status := Failed)
    case Got(all) =>
      var bytes := all[..Min(|all|, MAXLINE - s.to.iptr)];
      if bytes == [] then
        s.(stdineof := true, fins := if s.to.optr == s.to.iptr then s.fins + 1 else s.fins,
           emptyReads := Asked(s, s.to))
      else s.(to := Fill(s.to, bytes), fromStdin := s.fromStdin + bytes)
  }

  function ReadSock(s: State, r: ReadResult): (t: State)
    requires Shape(s)
    ensures Shape(t)
  {
    match r
    case ReadWouldBlock => s
    case ReadError => s.(status := Failed)
    case Got(all) =>
      var bytes := all[..Min(|all|, MAXLINE - s.fr.iptr)];
      if bytes == [] then s.(status := if s.stdineof then Returned else ServerTerminated, emptyReads := Asked(s, s.fr))
      else s.(fr := Fill(s.fr, bytes), fromSock := s.fromSock + bytes)
  }

  function WriteStdout(s: State, w: WriteResult): (t: State)
    requires Shape(s)
    ensures Shape(t)
  {
    if s.fr.iptr == s.fr.optr then s
    else
      match w
      case WriteWouldBlock => s
      case WriteError => s.(status := Failed)
      case Wrote(most) =>
        var n := Min(most, s.fr.iptr - s.fr.optr);
        s.(fr := Drain(s.fr, n), toStdout := s.toStdout + Held(s.fr)[..n])
  }

  function WriteSock(s: State, w: WriteResult): (t: State)
    requires Shape(s)
    ensures Shape(t)
  {
    if s.to.iptr == s.to.optr then s
    else
      match w
      case WriteWouldBlock => s
      case WriteError => s.(status := Failed)
      case Wrote(most) =>
        var n := Min(most, s.to.iptr - s.to.optr);
        s.(to := Drain(s.to, n), toSock := s.toSock + Held(s.to)[..n],
           fins := if n == s.to.iptr - s.to.optr && s.stdineof then s.fins + 1 else s.fins)
  }

  /** The reads of one turn.  Select reports only what it was asked about. */
  function ReadPhase(s: State, e: Env): (t: State)
    requires Shape(s)
    ensures Shape(t)
  {
    var a := if !s.stdineof && s.to.iptr < MAXLINE && e.stdinReady then ReadStdin(s, e.stdinRead) else s;
    if a.status == Running && s.fr.iptr < MAXLINE && e.sockReady then ReadSock(a, e.sockRead) else a
  }

  /** The writes of one turn: what was waiting when select was asked, if it reports
      so, and anyway what has just been read. */
  function WritePhase(t: State, stdout: bool, sock: bool, e: Env): (u: State)
    requires Shape(t)
    ensures Shape(u)
  {
    var c := if stdout then WriteStdout(t, e.stdoutWrite) else t;
    if c.status == Running && sock then WriteSock(c, e.sockWrite) else c
  }

  /** One turn of the loop. */
  function Turn(s: State, e: Env): (t: State)
    requires Shape(s)
    ensures Shape(t)
  {
    if s.status != Running then s
    else
      var t := ReadPhase(s, e);
      var stdout := (s.fr.optr != s.fr.iptr && e.stdoutWritable) || t.fr.iptr != s.fr.iptr;
      var sock := (s.to.optr != s.to.iptr && e.sockWritable) || t.to.iptr != s.to.iptr;
      if t.status != Running then t else WritePhase(t, stdout, sock, e)
  }

  function Empty(): Buf { Buf(seq(MAXLINE, _ => 0), 0, 0) }

  function Start(): State { State(Empty(), Empty(), false, Running, [], [], [], [], 0, 0) }

  function Run(es: seq<Env>): (s: State)
    ensures Shape(s)
  {
    if es == [] then Start() else Turn(Run(es[..|es| - 1]), es[|es| - 1])
  }

  // ----- what every turn keeps -----

  ghost predicate Inv(s: State) {
    && BufOk(s.to) && BufOk(s.fr)
    && s.fromStdin == s.toSock + Held(s.to)
    && s.fromSock == s.toStdout + Held(s.fr)
    && s.fins == (if s.stdineof && s.to.optr == s.to.iptr then 1 else 0)
    && s.emptyReads == 0
  }

  lemma FilledHolds(b: Buf, bytes: seq<Byte>)
    requires BufOk(b) && b.iptr + |bytes| <= MAXLINE && bytes != []
    ensures BufOk(Fill(b, bytes)) && Held(Fill(b, bytes)) == Held(b) + bytes
  {
  }

  lemma DrainedHolds(b: Buf, n: nat)
    requires BufOk(b) && n <= b.iptr - b.optr
    ensures BufOk(Drain(b, n)) && Held(b) == Held(b)[..n] + Held(Drain(b, n))
  {
  }

  lemma ReadStdinKeeps(s: State, r: ReadResult)
    requires Inv(s) && !s.stdineof && s.to.iptr < MAXLINE
    ensures Inv(ReadStdin(s, r))
  {
    hide Fill, Held;
    if r.Got? && r.bytes != [] {
      var bytes := r.bytes[..Min(|r.bytes|, MAXLINE - s.to.iptr)];
      FilledHolds(s.to, bytes);
      assert s.toSock + Held(s.to) + bytes == s.toSock + (Held(s.to) + bytes);
    }
  }

  lemma ReadSockKeeps(s: State, r: ReadResult)
    requires Inv(s) && s.fr.iptr < MAXLINE
    ensures Inv(ReadSock(s, r))
  {
    hide Fill, Held;
    if r.Got? && r.bytes != [] {
      var bytes := r.bytes[..Min(|r.bytes|, MAXLINE - s.fr.iptr)];
      FilledHolds(s.fr, bytes);
      assert s.toStdout + Held(s.fr) + bytes == s.toStdout + (Held(s.fr) + bytes);
    }
  }

  lemma WriteStdoutKeeps(s: State, w: WriteResult)
    requires Inv(s)
    ensures Inv(WriteStdout(s, w))
  {
    if w.Wrote? && s.fr.iptr != s.fr.optr {
      var n := Min(w.n, s.fr.iptr - s.fr.optr);
      DrainedHolds(s.fr, n);
      assert s.toStdout + (Held(s.fr)[..n] + Held(Drain(s.fr, n))) ==
        s.toStdout + Held(s.fr)[..n] + Held(Drain(s.fr, n));
    }
  }

  lemma WriteSockKeeps(s: State, w: WriteResult)
    requires Inv(s)
    ensures Inv(WriteSock(s, w))
  {
    if w.Wrote? && s.to.iptr != s.to.optr {
      var n := Min(w.n, s.to.iptr - s.to.optr);
      DrainedHolds(s.to, n);
      assert s.toSock + (Held(s.to)[..n] + Held(Drain(s.to, n))) == s.toSock + Held(s.to)[..n] + Held(Drain(s.to, n));
    }
  }

  lemma TurnKeepsInv(s: State, e: Env)
    requires Inv(s)
    ensures Inv(Turn(s, e))
  {
    hide Held, Fill, Drain;
    if s.status == Running {
      var a := s;
      if !s.stdineof && s.to.iptr < MAXLINE && e.stdinReady {
        ReadStdinKeeps(s, e.stdinRead);
        a := ReadStdin(s, e.stdinRead);
      }
      if s.fr.iptr < MAXLINE {
        ReadSockKeeps(a, e.sockRead);
      }
      var t := ReadPhase(s, e);
      WriteStdoutKeeps(t, e.stdoutWrite);
      WriteSockKeeps(t, e.sockWrite);
      WriteSockKeeps(WriteStdout(t, e.stdoutWrite), e.sockWrite);
    }
  }

  lemma {:induction false} EveryRunIsOk(es: seq<Env>)
    ensures Inv(Run(es))
  {
    if es == [] {
    } else {
      EveryRunIsOk(es[..|es| - 1]);
      TurnKeepsInv(Run(es[..|es| - 1]), es[|es| - 1]);
    }
  }

  // ----- what it means -----

  /** In both directions the bytes written and those still buffered are the bytes
      read, in order; an empty buffer has both pointers at its start. */
  lemma NothingLostOrReordered(es: seq<Env>)
    ensures var s := Run(es);
      && s.fromStdin == s.toSock + Held(s.to) && (Held(s.to) == [] ==> s.to.iptr == s.to.optr == 0)
      && s.fromSock == s.toStdout + Held(s.fr) && (Held(s.fr) == [] ==> s.fr.iptr == s.fr.optr == 0)
  {
    EveryRunIsOk(es);
  }

  /** No read is ever asked for zero bytes, so no bytes always means end of file. */
  lemma NoReadOfNothing(es: seq<Env>)
    ensures Run(es).emptyReads == 0
  {
    EveryRunIsOk(es);
  }

  /** FIN is sent at most once: exactly when standard input has ended and all of it
      has been written to the socket. */
  lemma FinExactlyWhenAllSent(es: seq<Env>)
    ensures var s := Run(es);
      && s.fins <= 1
      && (s.fins == 1 <==> s.stdineof && s.toSock == s.fromStdin)
  {
    EveryRunIsOk(es);
    var s := Run(es);
    assert |s.fromStdin| == |s.toSock| + |Held(s.to)|;
    if Held(s.to) == [] {
      assert s.toSock + [] == s.toSock;
    }
  }

  lemma TurnAfterFin(s: State, e: Env)
    requires Inv(s) && s.fins == 1
    ensures Turn(s, e).fins == 1 && Turn(s, e).toSock == s.toSock && Turn(s, e).fromStdin == s.fromStdin
  {
  }

  /** After the FIN nothing more is read from standard input or written to the
      socket. */
  lemma NothingAfterFin(es: seq<Env>, e: Env)
    requires Run(es).fins == 1
    ensures Run(es + [e]).fins == 1
    ensures Run(es + [e]).toSock == Run(es).toSock && Run(es + [e]).fromStdin == Run(es).fromStdin
  {
    hide Turn;
    assert (es + [e])[..|es|] == es;
    EveryRunIsOk(es);
    TurnAfterFin(Run(es), e);
  }

  // ----- what is lost when the server closes -----

  predicate ServerClosed(s: State) { s.status == Returned || s.status == ServerTerminated }

  /** The turn that reads the server's end of file leaves the bytes held for standard
      output unwritten: all that was read from the socket has been written if and only
      if nothing was held when the turn began. */
  lemma ClosingTurnLosesHeld(s: State, e: Env)
    requires Inv(s) && s.status == Running && ServerClosed(Turn(s, e))
    ensures var t := Turn(s, e);
      && t.fromSock == t.toStdout + Held(s.fr)
      && (t.toStdout == t.fromSock <==> s.fr.optr == s.fr.iptr)
  {
    hide WritePhase, ReadPhase, Held;
    var t := ReadPhase(s, e);
    if t.status == Running {
      WritesDoNotClose(t, e);
    }
    ReadsClose(s, e);
    assert |t.fromSock| == |t.toStdout| + |Held(s.fr)|;
    HeldIs(s.fr);
    assert s.toStdout + [] == s.toStdout;
  }

  lemma HeldIs(b: Buf)
    requires BufOk(b)
    ensures |Held(b)| == b.iptr - b.optr
  {
  }

  lemma WritesDoNotClose(t: State, e: Env)
    requires Shape(t) && t.status == Running
    ensures forall stdout, sock :: !ServerClosed(WritePhase(t, stdout, sock, e))
  {
    hide Drain, Held;
  }

  lemma ReadsClose(s: State, e: Env)
    requires Inv(s) && s.status == Running && ServerClosed(ReadPhase(s, e))
    ensures var t := ReadPhase(s, e); t.fr == s.fr && t.fromSock == s.fromSock && t.toStdout == s.toStdout
  {
    hide Fill, Held;
  }

  /** The same over runs: a run that has ended with the server closed has written all
      it read from the socket exactly when its last turn began with nothing held. */
  lemma {:induction false} AllWrittenExactlyWhenNoneHeld(es: seq<Env>) returns (k: nat)
    requires ServerClosed(Run(es))
    ensures k < |es| && Run(es[..k]).status == Running && Run(es[..k + 1]) == Run(es)
    ensures var before, s := Run(es[..k]), Run(es);
      && s.fromSock == s.toStdout + Held(before.fr)
      && (s.toStdout == s.fromSock <==> before.fr.optr == before.fr.iptr)
  {
    hide Turn, Held;
    var last := es[..|es| - 1];
    assert es[..|es|] == es;
    if Run(last).status == Running {
      k := |es| - 1;
      EveryRunIsOk(last);
      ClosingTurnLosesHeld(Run(last), es[|es| - 1]);
    } else {
      StaysEnded(last, es[|es| - 1]);
      k := AllWrittenExactlyWhenNoneHeld(last);
      assert last[..k] == es[..k] && last[..k + 1] == es[..k + 1];
    }
  }

  lemma StaysEnded(es: seq<Env>, e: Env)
    requires Run(es).status != Running
    ensures Turn(Run(es), e) == Run(es)
  {
  }

  /** Standard input ends while a byte comes from the server, and standard output is
      not ready for it; then the server closes. */
  const BLOCKED := Env(true, true, false, false, Got([]), Got([65]), WriteWouldBlock, WriteWouldBlock)
  const CLOSED := Env(false, true, false, true, ReadWouldBlock, Got([]), Wrote(1), WriteWouldBlock)

  /** The client then returns normally with a byte it never wrote. */
  lemma ByteIsLost()
    ensures var s := Run([BLOCKED, CLOSED]);
      s.status == Returned && s.fromSock == [65] && s.toStdout == []
  {
    hide Drain;
    var es := [BLOCKED, CLOSED];
    assert es[..1][..0] == [];
    var s := Run(es[..1]);
    assert s == Turn(Run([]), BLOCKED) && Run(es) == Turn(s, CLOSED);
    assert [65][..1] == [65];
    assert s.stdineof && s.fromSock == [] + [65];
    var none: seq<Byte> := [];
    assert none[..Min(0, MAXLINE - s.fr.iptr)] == [];
    assert ReadPhase(s, CLOSED).status == Returned;
  }

  // ----- the program's own form -----

  class LineBuffer {
    const data: array<Byte>
    var iptr: nat
    var optr: nat

    ghost predicate Is(b: Buf)
      reads this, data
    {
      data[..] == b.data && iptr == b.iptr && optr == b.optr
    }

    constructor ()
      ensures Is(Empty()) && fresh(data)
    {
      data := new Byte[MAXLINE](_ => 0);
      iptr, optr := 0, 0;
      new;
      assert data[..] == Empty().data;
    }

    /** The bytes a read stores, no more than there is room for. */
    method Read(all: seq<Byte>, ghost b: Buf) returns (n: nat)
      requires Is(b) && BufShape(b)
      modifies this`iptr, data
      ensures n == Min(|all|, MAXLINE - b.iptr)
      ensures if n == 0 then Is(b) else Is(Fill(b, all[..n]))
    {
      n := Min(|all|, MAXLINE - iptr);
      forall k | 0 <= k < n {
        data[iptr + k] := all[k];
      }
      iptr := iptr + n;
    }

    /** The bytes a write takes, no more than there are. */
    method Write(most: nat, ghost b: Buf) returns (bytes: seq<Byte>)
      requires Is(b) && BufShape(b)
      modifies this`iptr, this`optr
      ensures bytes == Held(b)[..Min(most, b.iptr - b.optr)] && Is(Drain(b, |bytes|))
    {
      var n := Min(most, iptr - optr);
      bytes := data[optr..optr + n];
      assert bytes == Held(b)[..n];
      optr := optr + n;
      if optr == iptr {
        iptr, optr := 0, 0;
      }
    }
  }

  class StrCli {
    const to: LineBuffer
    const fr: LineBuffer
    var stdineof: bool
    var status: Status
    var fins: nat

    ghost predicate Is(s: State)
      reads this, to, fr, to.data, fr.data
    {
      && to != fr && to.data != fr.data
      && to.Is(s.to) && fr.Is(s.fr)
      && stdineof == s.stdineof && status == s.status && fins == s.fins
    }

    constructor ()
      ensures Is(Start()) && fresh(to) && fresh(fr) && fresh(to.data) && fresh(fr.data)
    {
      to := new LineBuffer();
      fr := new LineBuffer();
      stdineof, status, fins := false, Running, 0;
    }

    method FromStdin(r: ReadResult, ghost s: State)
      requires Is(s) && Shape(s)
      modifies this, to, to.data
      ensures Is(ReadStdin(s, r))
    {
      match r
      case ReadWouldBlock =>
      case ReadError => status := Failed;
      case Got(all) =>
        var n := to.Read(all, s.to);
        if n == 0 {
          stdineof := true;
          if to.optr == to.iptr {
            fins := fins + 1;
          }
        }
    }

    method FromSock(r: ReadResult, ghost s: State)
      requires Is(s) && Shape(s)
      modifies this, fr, fr.data
      ensures Is(ReadSock(s, r))
    {
      match r
      case ReadWouldBlock =>
      case ReadError => status := Failed;
      case Got(all) =>
        var n := fr.Read(all, s.fr);
        if n == 0 {
          status := if stdineof then Returned else ServerTerminated;
        }
    }

    method ToStdout(w: WriteResult, ghost s: State) returns (bytes: seq<Byte>)
      requires Is(s) && Shape(s)
      modifies this, fr
      ensures Is(WriteStdout(s, w)) && WriteStdout(s, w).toStdout == s.toStdout + bytes
    {
      bytes := [];
      if fr.iptr > fr.optr {
        match w
        case WriteWouldBlock =>
        case WriteError => status := Failed;
        case Wrote(most) => bytes := fr.Write(most, s.fr);
      }
    }

    method ToSock(w: WriteResult, ghost s: State) returns (bytes: seq<Byte>)
      requires Is(s) && Shape(s)
      modifies this, to
      ensures Is(WriteSock(s, w)) && WriteSock(s, w).toSock == s.toSock + bytes
    {
      bytes := [];
      if to.iptr > to.optr {
        match w
        case WriteWouldBlock =>
        case WriteError => status := Failed;
        case Wrote(most) =>
          var n := to.iptr - to.optr;
          bytes := to.Write(most, s.to);
          if |bytes| == n && stdineof {
            fins := fins + 1;
          }
      }
    }

    method Reads(e: Env, ghost s: State)
      requires Is(s) && Shape(s) && s.status == Running
      modifies this, to, fr, to.data, fr.data
      ensures Is(ReadPhase(s, e))
    {
      hide ReadStdin, ReadSock, Fill;
      ghost var t := s;
      var rStdin := !stdineof && to.iptr < MAXLINE && e.stdinReady;
      var rSock := fr.iptr < MAXLINE && e.sockReady;
      if rStdin {
        FromStdin(e.stdinRead, t);
        t := ReadStdin(t, e.stdinRead);
      }
      if status == Running && rSock {
        FromSock(e.sockRead, t);
      }
    }

    method Writes(stdout: bool, sock: bool, e: Env, ghost t: State)
      requires Is(t) && Shape(t) && t.status == Running
      modifies this, to, fr
      ensures Is(WritePhase(t, stdout, sock, e))
    {
      hide WriteStdout, WriteSock, Drain;
      ghost var c := t;
      if stdout {
        var _ := ToStdout(e.stdoutWrite, c);
        c := WriteStdout(c, e.stdoutWrite);
      }
      if status == Running && sock {
        var _ := ToSock(e.sockWrite, c);
      }
    }

    /** One turn of the loop. */
    method Iterate(e: Env, ghost s: State)
      requires Is(s) && Shape(s)
      modifies this, to, fr, to.data, fr.data
      ensures Is(Turn(s, e))
    {
      hide ReadPhase, WritePhase;
      if status != Running {
        return;
      }
      var sock := to.optr != to.iptr && e.sockWritable;
      var stdout := fr.optr != fr.iptr && e.stdoutWritable;
      var toWas, frWas := to.iptr, fr.iptr;
      Reads(e, s);
      if status == Running {
        Writes(stdout || fr.iptr != frWas, sock || to.iptr != toWas, e, ReadPhase(s, e));
      }
    }
  }
}
