/** One turn of the copying loop, said of the bytes that go in and out instead of the
    buffers and indices; and that a turn in which everything may be written writes all. */
module CopyTurns {
  import opened Common
  import opened NonblockCopy

  // ----- what a turn reads -----

  predicate AsksStdin(s: State, e: Env) { !s.stdineof && s.to.iptr < MAXLINE && e.stdinReady }

  /** The socket is not read once standard input has failed. */
  predicate AsksSock(s: State, e: Env) { s.fr.iptr < MAXLINE && e.sockReady && !StdinFails(s, e) }

  predicate StdinFails(s: State, e: Env) { AsksStdin(s, e) && e.stdinRead == ReadError }

  predicate SockFails(s: State, e: Env) { AsksSock(s, e) && e.sockRead == ReadError }

  predicate StdinEnds(s: State, e: Env) { AsksStdin(s, e) && e.stdinRead == Got([]) }

  predicate SockEnds(s: State, e: Env) { AsksSock(s, e) && e.sockRead == Got([]) }

  /** The bytes a read gives that is asked for, with room for so many. */
  function BytesRead(asked: bool, r: ReadResult, room: nat): seq<Byte> {
    if asked && r.Got? then r.bytes[..Min(|r.bytes|, room)] else []
  }

  function FromStdin(s: State, e: Env): seq<Byte>
    requires Shape(s)
  {
    BytesRead(AsksStdin(s, e), e.stdinRead, MAXLINE - s.to.iptr)
  }

  function FromSock(s: State, e: Env): seq<Byte>
    requires Shape(s)
  {
    BytesRead(AsksSock(s, e), e.sockRead, MAXLINE - s.fr.iptr)
  }

  /** The turn goes on to its writes. */
  predicate ReadsDone(s: State, e: Env) { !StdinFails(s, e) && !SockFails(s, e) && !SockEnds(s, e) }

  // ----- what it writes -----

  /** A write is made of what was held and what has just been read, if there is any of it:
      when there was something and select said so, or when something has just been read. */
  predicate Tries(held: seq<Byte>, more: seq<Byte>, writable: bool) { (held != [] && writable) || more != [] }

  predicate TriesStdout(s: State, e: Env)
    requires Shape(s)
  {
    ReadsDone(s, e) && Tries(Held(s.fr), FromSock(s, e), e.stdoutWritable)
  }

  predicate StdoutFails(s: State, e: Env)
    requires Shape(s)
  {
    TriesStdout(s, e) && e.stdoutWrite == WriteError
  }

  predicate TriesSock(s: State, e: Env)
    requires Shape(s)
  {
    ReadsDone(s, e) && !StdoutFails(s, e) && Tries(Held(s.to), FromStdin(s, e), e.sockWritable)
  }

  predicate SockWriteFails(s: State, e: Env)
    requires Shape(s)
  {
    TriesSock(s, e) && e.sockWrite == WriteError
  }

  /** The bytes that a write takes. */
  function BytesWritten(tries: bool, w: WriteResult, held: seq<Byte>): seq<Byte> {
    if tries && w.Wrote? then held[..Min(w.n, |held|)] else []
  }

  function ToStdout(s: State, e: Env): seq<Byte>
    requires Shape(s)
  {
    BytesWritten(TriesStdout(s, e), e.stdoutWrite, Held(s.fr) + FromSock(s, e))
  }

  function ToSock(s: State, e: Env): seq<Byte>
    requires Shape(s)
  {
    BytesWritten(TriesSock(s, e), e.sockWrite, Held(s.to) + FromStdin(s, e))
  }

  // ----- the turn -----

  lemma HeldAfterFill(b: Buf, bytes: seq<Byte>)
    requires BufShape(b) && b.iptr + |bytes| <= MAXLINE
    ensures Held(Fill(b, bytes)) == Held(b) + bytes
  {
  }

  lemma ReadStdinIs(s: State, r: ReadResult)
    requires Shape(s) && s.to.iptr < MAXLINE
    ensures var t := ReadStdin(s, r); var in_ := BytesRead(true, r, MAXLINE - s.to.iptr);
      && t == s.(to := t.to, fromStdin := s.fromStdin + in_, stdineof := s.stdineof || r == Got([]), fins := t.fins,
                 status := if r == ReadError then Failed else s.status, emptyReads := t.emptyReads)
      && Held(t.to) == Held(s.to) + in_ && t.to.iptr == s.to.iptr + |in_|
      && t.fins == s.fins + if r == Got([]) && Held(s.to) == [] then 1 else 0
  {
    var in_ := BytesRead(true, r, MAXLINE - s.to.iptr);
    HeldAfterFill(s.to, in_);
    HeldIsEmpty(s.to);
    NothingRead(s);
    hide Held;
  }

  lemma ReadSockIs(s: State, r: ReadResult)
    requires Shape(s) && s.fr.iptr < MAXLINE && s.status == Running
    ensures var t := ReadSock(s, r); var in_ := BytesRead(true, r, MAXLINE - s.fr.iptr);
      && t == s.(fr := t.fr, fromSock := s.fromSock + in_, status := t.status, emptyReads := t.emptyReads)
      && Held(t.fr) == Held(s.fr) + in_ && t.fr.iptr == s.fr.iptr + |in_|
      && t.status == (if r == ReadError then Failed
                      else if r == Got([]) then if s.stdineof then Returned else ServerTerminated
                      else Running)
  {
    var in_ := BytesRead(true, r, MAXLINE - s.fr.iptr);
    HeldAfterFill(s.fr, in_);
    NothingRead(s);
    hide Held;
  }

  lemma NothingRead(s: State)
    requires Shape(s)
    ensures s.fromStdin + [] == s.fromStdin && s.fromSock + [] == s.fromSock
    ensures Held(s.to) + [] == Held(s.to) && Held(s.fr) + [] == Held(s.fr)
  {
  }

  lemma ReadPhaseIs(s: State, e: Env)
    requires Shape(s) && s.status == Running
    ensures var t := ReadPhase(s, e);
      && t.fromStdin == s.fromStdin + FromStdin(s, e) && t.fromSock == s.fromSock + FromSock(s, e)
      && Held(t.to) == Held(s.to) + FromStdin(s, e) && Held(t.fr) == Held(s.fr) + FromSock(s, e)
      && (t.to.iptr != s.to.iptr <==> FromStdin(s, e) != []) && (t.fr.iptr != s.fr.iptr <==> FromSock(s, e) != [])
      && t.stdineof == (s.stdineof || StdinEnds(s, e))
      && t.toStdout == s.toStdout && t.toSock == s.toSock
      && t.fins == s.fins + (if StdinEnds(s, e) && Held(s.to) == [] then 1 else 0)
      && t.status == (if StdinFails(s, e) || SockFails(s, e) then Failed
                      else if SockEnds(s, e) then if t.stdineof then Returned else ServerTerminated
                      else Running)
  {
    NothingRead(s);
    if AsksStdin(s, e) {
      ReadStdinIs(s, e.stdinRead);
    }
    var a := if AsksStdin(s, e) then ReadStdin(s, e.stdinRead) else s;
    NothingRead(a);
    if AsksSock(s, e) {
      ReadSockIs(a, e.sockRead);
    }
    hide Held, ReadStdin, ReadSock;
  }

  lemma HeldIsEmpty(b: Buf)
    requires BufShape(b)
    ensures Held(b) == [] <==> b.optr == b.iptr
    ensures |Held(b)| == b.iptr - b.optr
  {
  }

  lemma HeldAfterDrain(b: Buf, n: nat)
    requires BufShape(b) && n <= b.iptr - b.optr
    ensures Held(Drain(b, n)) == Held(b)[n..]
  {
  }

  lemma TakeAndRest(held: seq<Byte>, n: nat)
    requires n <= |held|
    ensures held[..n] + held[n..] == held
  {
  }

  lemma NothingWritten(t: State)
    requires Shape(t)
    ensures t.toStdout + [] == t.toStdout && t.toSock + [] == t.toSock
    ensures [] + Held(t.fr) == Held(t.fr) && [] + Held(t.to) == Held(t.to)
  {
  }

  /** A write that is tried takes the first bytes held, as many as it will, or fails. */
  lemma WriteStdoutIs(s: State, w: WriteResult)
    requires Shape(s) && s.status == Running && Held(s.fr) != []
    ensures var t := WriteStdout(s, w); var out := BytesWritten(true, w, Held(s.fr));
      && t == s.(fr := t.fr, toStdout := s.toStdout + out, status := t.status)
      && out + Held(t.fr) == Held(s.fr)
      && t.status == if w == WriteError then Failed else Running
  {
    HeldIsEmpty(s.fr);
    var n := if w.Wrote? then Min(w.n, |Held(s.fr)|) else 0;
    HeldAfterDrain(s.fr, n);
    NothingWritten(s);
    TakeAndRest(Held(s.fr), n);
    hide Held, Drain;
  }

  /** The same for the socket, with the deferred shutdown when nothing is left. */
  lemma WriteSockIs(s: State, w: WriteResult)
    requires Shape(s) && s.status == Running && Held(s.to) != []
    ensures var t := WriteSock(s, w); var out := BytesWritten(true, w, Held(s.to));
      && t == s.(to := t.to, toSock := s.toSock + out, status := t.status, fins := t.fins)
      && out + Held(t.to) == Held(s.to)
      && t.status == (if w == WriteError then Failed else Running)
      && t.fins == s.fins + if s.stdineof && Held(t.to) == [] then 1 else 0
  {
    HeldIsEmpty(s.to);
    var n := if w.Wrote? then Min(w.n, |Held(s.to)|) else 0;
    HeldAfterDrain(s.to, n);
    NothingWritten(s);
    TakeAndRest(Held(s.to), n);
    hide Held, Drain;
  }

  /** What one turn of the loop does with the bytes, the end of input and its result. */
  lemma TurnIs(s: State, e: Env)
    requires Shape(s) && s.status == Running
    ensures var t := Turn(s, e);
      && t.fromStdin == s.fromStdin + FromStdin(s, e) && t.fromSock == s.fromSock + FromSock(s, e)
      && t.toStdout == s.toStdout + ToStdout(s, e) && t.toSock == s.toSock + ToSock(s, e)
      && ToStdout(s, e) + Held(t.fr) == Held(s.fr) + FromSock(s, e)
      && ToSock(s, e) + Held(t.to) == Held(s.to) + FromStdin(s, e)
      && t.stdineof == (s.stdineof || StdinEnds(s, e))
      && t.status == (if StdinFails(s, e) || SockFails(s, e) then Failed
                      else if SockEnds(s, e) then if t.stdineof then Returned else ServerTerminated
                      else if StdoutFails(s, e) || SockWriteFails(s, e) then Failed
                      else Running)
      && t.fins == s.fins + (if StdinEnds(s, e) && Held(s.to) == [] then 1 else 0)
                          + (if TriesSock(s, e) && t.stdineof && Held(t.to) == [] then 1 else 0)
  {
    ReadPhaseIs(s, e);
    HeldIsEmpty(s.to);
    HeldIsEmpty(s.fr);
    var t := ReadPhase(s, e);
    NothingWritten(t);
    hide ReadPhase, Held;
    if t.status == Running {
      WritesAre(s, e);
    }
  }

  /** With nothing held there is nothing to write. */
  lemma NothingToWrite(s: State, w: WriteResult)
    requires Shape(s)
    ensures Held(s.fr) == [] ==> WriteStdout(s, w) == s
    ensures Held(s.to) == [] ==> WriteSock(s, w) == s
  {
    HeldIsEmpty(s.fr);
    HeldIsEmpty(s.to);
  }

  /** Which writes a turn makes. */
  lemma WhichWrites(s: State, e: Env)
    requires Shape(s) && s.status == Running && ReadPhase(s, e).status == Running
    ensures var r := ReadPhase(s, e);
      var stdout := Tries(Held(s.fr), FromSock(s, e), e.stdoutWritable);
      var c := if stdout then WriteStdout(r, e.stdoutWrite) else r;
      var sock := Tries(Held(s.to), FromStdin(s, e), e.sockWritable);
      Turn(s, e) == if sock && c.status == Running then WriteSock(c, e.sockWrite) else c
  {
    ReadPhaseIs(s, e);
    HeldIsEmpty(s.to);
    HeldIsEmpty(s.fr);
    hide ReadPhase, Held, WriteStdout, WriteSock, FromStdin, FromSock;
  }

  lemma WritesAre(s: State, e: Env)
    requires Shape(s) && s.status == Running && ReadPhase(s, e).status == Running
    ensures var r, t := ReadPhase(s, e), Turn(s, e);
      && t.fromStdin == r.fromStdin && t.fromSock == r.fromSock && t.stdineof == r.stdineof
      && t.toStdout == r.toStdout + ToStdout(s, e) && t.toSock == r.toSock + ToSock(s, e)
      && ToStdout(s, e) + Held(t.fr) == Held(r.fr) && ToSock(s, e) + Held(t.to) == Held(r.to)
      && t.status == (if StdoutFails(s, e) || SockWriteFails(s, e) then Failed else Running)
      && t.fins == r.fins + if TriesSock(s, e) && t.stdineof && Held(t.to) == [] then 1 else 0
  {
    ReadPhaseIs(s, e);
    WhichWrites(s, e);
    var r := ReadPhase(s, e);
    NothingWritten(r);
    var c := if TriesStdout(s, e) then WriteStdout(r, e.stdoutWrite) else r;
    if TriesStdout(s, e) {
      WriteStdoutIs(r, e.stdoutWrite);
      NothingWritten(c);
    }
    if TriesSock(s, e) {
      WriteSockIs(c, e.sockWrite);
    }
    hide Turn, ReadPhase, Held, WriteStdout, WriteSock, FromStdin, FromSock;
  }

  // ----- a good turn -----

  /** Nothing to read, and everything may be written. */
  const WRITE_ALL := Env(false, false, true, true, ReadWouldBlock, ReadWouldBlock, Wrote(MAXLINE), Wrote(MAXLINE))

  lemma AllHeldIsWritten(s: State)
    requires Shape(s)
    ensures FromStdin(s, WRITE_ALL) == FromSock(s, WRITE_ALL) == []
    ensures ToStdout(s, WRITE_ALL) == Held(s.fr) && ToSock(s, WRITE_ALL) == Held(s.to)
  {
    NothingRead(s);
    HeldIsEmpty(s.to);
    HeldIsEmpty(s.fr);
    TakeAll(Held(s.fr));
    TakeAll(Held(s.to));
    hide Held;
  }

  lemma AfterWritingAll(s: State)
    requires Shape(s) && s.status == Running
    ensures var t := Turn(s, WRITE_ALL);
      && t.status == Running && Held(t.fr) == Held(t.to) == []
      && t.toStdout == s.toStdout + Held(s.fr) && t.toSock == s.toSock + Held(s.to)
      && t.fromSock == s.fromSock && t.fromStdin == s.fromStdin && t.stdineof == s.stdineof
  {
    TurnIs(s, WRITE_ALL);
    AllHeldIsWritten(s);
    NothingRead(s);
    hide Held, Turn, FromStdin, FromSock, ToStdout, ToSock;
  }

  /** After any run that is still going on, one turn in which everything may be written
      writes all that has been read, and sends FIN if standard input has ended. */
  lemma AllGetsThrough(es: seq<Env>)
    requires Run(es).status == Running
    ensures var s, t := Run(es), Turn(Run(es), WRITE_ALL);
      && t.status == Running && Held(t.fr) == Held(t.to) == []
      && t.toStdout == t.fromSock == s.fromSock && t.toSock == t.fromStdin == s.fromStdin
      && t.fins == if s.stdineof then 1 else 0
  {
    var s := Run(es);
    EveryRunIsOk(es);
    AfterWritingAll(s);
    TurnKeepsInv(s, WRITE_ALL);
    HeldIsEmpty(Turn(s, WRITE_ALL).to);
    hide Held, Turn, Run;
  }

  /** A read that is asked for no bytes, as none ever is, would be counted. */
  lemma EmptyReadsCounted(s: State, r: ReadResult)
    requires Shape(s)
    ensures s.to.iptr == MAXLINE && r.Got? ==> ReadStdin(s, r).emptyReads == s.emptyReads + 1
    ensures s.fr.iptr == MAXLINE && r.Got? ==> ReadSock(s, r).emptyReads == s.emptyReads + 1
    ensures s.to.iptr < MAXLINE || !r.Got? ==> ReadStdin(s, r).emptyReads == s.emptyReads
    ensures s.fr.iptr < MAXLINE || !r.Got? ==> ReadSock(s, r).emptyReads == s.emptyReads
  {
  }
}
