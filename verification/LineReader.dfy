/** The buffered line reader: whatever pieces `read` returns, successive calls cut
    the one stream of bytes into the same lines. */
module LineReader {
  import opened Common

  const NL: Byte := 10
  const MAXLINE := 4096

  // ----- the stream -----

  /** What one `read` call does. */
  datatype ReadEvent = Chunk(bytes: seq<Byte>) | EndOfFile | Interrupted | Failure

  /** What a reader of single bytes meets. */
  datatype Item = Char(b: Byte) | Eof | Err

  function Chars(bytes: seq<Byte>): (is_: seq<Item>)
    ensures |is_| == |bytes| && forall i | 0 <= i < |bytes| :: is_[i] == Char(bytes[i])
  {
    seq(|bytes|, i requires 0 <= i < |bytes| => Char(bytes[i]))
  }

  /** A read returns at most a buffer full; one that returns nothing has met the end
      of the file, and an interrupted one is repeated. */
  function ItemsOf(e: ReadEvent): seq<Item> {
    match e
    case Chunk(bytes) =>
      if bytes == [] then [Eof] else Chars(bytes[..if |bytes| < MAXLINE then |bytes| else MAXLINE])
    case EndOfFile => [Eof]
    case Interrupted => []
    case Failure => [Err]
  }

  /** The stream behind a script of reads. */
  function Stream(script: seq<ReadEvent>): seq<Item> {
    if script == [] then [] else ItemsOf(script[0]) + Stream(script[1..])
  }

  /** The next item; a stream that has run out reads as end of file. */
  function First(is_: seq<Item>): Item { if is_ == [] then Eof else is_[0] }
  function Later(is_: seq<Item>): seq<Item> { if is_ == [] then [] else is_[1..] }

  function BytesOf(is_: seq<Item>): seq<Byte> {
    if is_ == [] then [] else (if is_[0].Char? then [is_[0].b] else []) + BytesOf(is_[1..])
  }

  // ----- one line -----

  datatype Why = Newline | End | Error | Full

  /** What a call stores, why it stopped, and the stream it leaves. */
  datatype Line = Line(piece: seq<Byte>, why: Why, rest: seq<Item>)

  /** A line of at most `room` bytes. */
  function TakeLine(is_: seq<Item>, room: nat): Line
    decreases room
  {
    if room == 0 then Line([], Full, is_)
    else
      match First(is_)
      case Eof => Line([], End, Later(is_))
      case Err => Line([], Error, Later(is_))
      case Char(b) =>
        if b == NL then Line([b], Newline, Later(is_))
        else var more := TakeLine(Later(is_), room - 1); more.(piece := [b] + more.piece)
  }

  /** The value `readline` returns. */
  function Returned(l: Line): int {
    match l.why
    case Newline => |l.piece|
    case End => |l.piece|
    case Error => -1
    case Full => |l.piece| + 1
  }

  /** What a call stores is the bytes it takes; a newline only ever ends a piece, and
      ends it exactly when it is there; the value returned is the number of bytes
      stored, unless the buffer is full or a read failed. */
  lemma {:induction false} LineIs(is_: seq<Item>, room: nat)
    ensures var l := TakeLine(is_, room);
      && BytesOf(is_) == l.piece + BytesOf(l.rest)
      && |l.piece| <= room
      && (forall k | 0 <= k < |l.piece| :: l.piece[k] == NL <==> l.why == Newline && k == |l.piece| - 1)
      && (l.why == Newline ==> l.piece != [])
      && (l.why == Full ==> |l.piece| == room)
      && (l.why == Newline || l.why == End ==> Returned(l) == |l.piece|)
      && (l.why == Full ==> Returned(l) == room + 1)
      && (l.why == Error ==> Returned(l) == -1)
    decreases room
  {
    if room > 0 && is_ != [] && is_[0].Char? && is_[0].b != NL {
      LineIs(is_[1..], room - 1);
      var more := TakeLine(is_[1..], room - 1);
      assert [is_[0].b] + (more.piece + BytesOf(more.rest)) == [is_[0].b] + more.piece + BytesOf(more.rest);
    }
  }

  /** Data bytes that fit in a buffer beside the terminator. */
  function Room(maxlen: nat): nat { if maxlen == 0 then 0 else maxlen - 1 }

  /** A piece leaves a byte of the buffer for the terminator, and no more than that unused
      if the line goes on; with no buffer nothing is read. */
  lemma PieceFits(is_: seq<Item>, maxlen: nat)
    ensures var l := TakeLine(is_, Room(maxlen));
      && (maxlen > 0 ==> |l.piece| + 1 <= maxlen && (l.why == Full ==> |l.piece| + 1 == maxlen == Returned(l)))
      && (maxlen == 0 ==> l == Line([], Full, is_) && Returned(l) == 1)
  {
    LineIs(is_, Room(maxlen));
  }

  /** A read gives all that has come, up to the first 4,096 bytes, in order. */
  lemma ReadIs(bytes: seq<Byte>)
    requires bytes != []
    ensures var is_ := ItemsOf(Chunk(bytes));
      && |is_| == Min(|bytes|, 4096)
      && forall k | 0 <= k < |is_| :: is_[k] == Char(bytes[k])
  {
  }

  /** The first `n` items are bytes that do not end a line. */
  predicate PlainUpTo(is_: seq<Item>, n: nat) {
    n <= |is_| && forall k | 0 <= k < n :: is_[k].Char? && is_[k].b != NL
  }

  /** The buffer fills exactly when the stream begins with as many such bytes as there
      is room for, and a read fails exactly when it is met after fewer.  Just then is the
      value returned not the number of bytes stored. */
  lemma {:induction false} ValueIsLengthExactlyUnless(is_: seq<Item>, room: nat)
    ensures var l := TakeLine(is_, room);
      && (l.why == Full <==> PlainUpTo(is_, room))
      && (l.why == Error <==> exists k: nat :: k < room && k < |is_| && PlainUpTo(is_, k) && is_[k] == Err)
      && (Returned(l) != |l.piece| <==>
            PlainUpTo(is_, room) || exists k: nat :: k < room && k < |is_| && PlainUpTo(is_, k) && is_[k] == Err)
    decreases room
  {
    LineIs(is_, room);
    if room == 0 {
    } else if is_ == [] || !is_[0].Char? || is_[0].b == NL {
      assert is_ != [] && is_[0] == Err ==> PlainUpTo(is_, 0);
    } else {
      ValueIsLengthExactlyUnless(is_[1..], room - 1);
      assert TakeLine(is_, room).why == TakeLine(is_[1..], room - 1).why;
      OnePlainMore(is_, room);
      forall k: nat | k < room && k < |is_| && PlainUpTo(is_, k) && is_[k] == Err
        ensures k > 0 && PlainUpTo(is_[1..], k - 1) && is_[1..][k - 1] == Err
      {
        OnePlainMore(is_, k);
      }
      forall k: nat | k < room - 1 && k < |is_[1..]| && PlainUpTo(is_[1..], k) && is_[1..][k] == Err
        ensures PlainUpTo(is_, k + 1) && is_[k + 1] == Err
      {
        OnePlainMore(is_, k + 1);
      }
    }
  }

  lemma OnePlainMore(is_: seq<Item>, n: nat)
    requires is_ != [] && is_[0].Char? && is_[0].b != NL
    ensures n > 0 ==> (PlainUpTo(is_, n) <==> PlainUpTo(is_[1..], n - 1))
  {
    if n > 0 && PlainUpTo(is_[1..], n - 1) {
      assert forall k | 1 <= k < n :: is_[k] == is_[1..][k - 1];
    }
    if n > 0 && PlainUpTo(is_, n) {
      assert forall k | 0 <= k < n - 1 :: is_[1..][k] == is_[k + 1];
    }
  }

  /** A line whose first bytes have been taken already. */
  function Onto(kept: seq<Byte>, l: Line): Line { l.(piece := kept + l.piece) }

  /** One byte at a time. */
  lemma LineStep(kept: seq<Byte>, is_: seq<Item>, room: nat)
    requires room > 0
    ensures var l := Onto(kept, TakeLine(is_, room));
      match First(is_)
      case Eof => l == Line(kept, End, Later(is_))
      case Err => l == Line(kept, Error, Later(is_))
      case Char(b) =>
        l == if b == NL then Line(kept + [b], Newline, Later(is_))
             else Onto(kept + [b], TakeLine(Later(is_), room - 1))
  {
    assert kept + [] == kept;
    if First(is_).Char? {
      var b, more := First(is_).b, TakeLine(Later(is_), room - 1).piece;
      assert kept + ([b] + more) == kept + [b] + more;
    }
  }

  lemma LineEnds(kept: seq<Byte>, is_: seq<Item>)
    ensures Onto(kept, TakeLine(is_, 0)) == Line(kept, Full, is_)
  {
  }

  lemma LineStarts(l: Line)
    ensures Onto([], l) == l
  {
  }

  // ----- successive calls -----

  /** The lines of calls with these buffer sizes, and the stream left. */
  function Calls(is_: seq<Item>, sizes: seq<nat>): (seq<Line>, seq<Item>)
    decreases |sizes|
  {
    if sizes == [] then ([], is_)
    else
      var l := TakeLine(is_, Room(sizes[0]));
      var (more, rest) := Calls(l.rest, sizes[1..]);
      ([l] + more, rest)
  }

  function Pieces(ls: seq<Line>): seq<Byte> {
    if ls == [] then [] else ls[0].piece + Pieces(ls[1..])
  }

  lemma NoPieces(is_: seq<Item>)
    ensures Pieces([]) + BytesOf(is_) == BytesOf(is_)
  {
  }

  lemma PiecesOnto(l: Line, more: seq<Line>)
    ensures Pieces([l] + more) == l.piece + Pieces(more)
  {
    assert ([l] + more)[1..] == more;
  }

  /** The pieces of successive calls, followed by what is unread, are the bytes of
      the stream. */
  lemma {:induction false} PiecesAreTheStream(is_: seq<Item>, sizes: seq<nat>)
    ensures var (ls, rest) := Calls(is_, sizes);
      Pieces(ls) + BytesOf(rest) == BytesOf(is_)
    decreases |sizes|
  {
    hide TakeLine, Pieces, BytesOf;
    if sizes == [] {
      NoPieces(is_);
    } else {
      var room := Room(sizes[0]);
      var l := TakeLine(is_, room);
      LineIs(is_, room);
      PiecesAreTheStream(l.rest, sizes[1..]);
      var (more, rest) := Calls(l.rest, sizes[1..]);
      PiecesOnto(l, more);
      Assoc(l.piece, Pieces(more), BytesOf(rest));
    }
  }

  // ----- chunking does not matter -----

  /** Only data, in any pieces, with any interruptions. */
  ghost predicate OnlyData(script: seq<ReadEvent>) {
    forall i | 0 <= i < |script| ::
      script[i] == Interrupted || (script[i].Chunk? && 1 <= |script[i].bytes| <= MAXLINE)
  }

  function DataOf(script: seq<ReadEvent>): seq<Byte> {
    if script == [] then [] else (if script[0].Chunk? then script[0].bytes else []) + DataOf(script[1..])
  }

  lemma CharsJoin(a: seq<Byte>, b: seq<Byte>)
    ensures Chars(a) + Chars(b) == Chars(a + b)
  {
  }

  lemma {:induction false} StreamIsData(script: seq<ReadEvent>)
    requires OnlyData(script)
    ensures Stream(script) == Chars(DataOf(script))
  {
    if script == [] {
    } else {
      hide Chars;
      StreamIsData(script[1..]);
      var rest := DataOf(script[1..]);
      if script[0].Chunk? {
        var bytes := script[0].bytes;
        assert bytes[..|bytes|] == bytes;
        CharsJoin(bytes, rest);
      } else {
        assert [] + rest == rest && [] + Chars(rest) == Chars(rest);
      }
    }
  }

  /** Two ways of reading the same bytes give the same lines. */
  lemma SameBytesSameLines(a: seq<ReadEvent>, b: seq<ReadEvent>, sizes: seq<nat>)
    requires OnlyData(a) && OnlyData(b) && DataOf(a) == DataOf(b)
    ensures Calls(Stream(a), sizes) == Calls(Stream(b), sizes)
  {
    StreamIsData(a);
    StreamIsData(b);
  }

  // ----- the program's own form -----

  lemma FirstUnread(unread: seq<Byte>, later: seq<Item>)
    requires unread != []
    ensures First(Chars(unread) + later) == Char(unread[0])
    ensures Later(Chars(unread) + later) == Chars(unread[1..]) + later
  {
    assert (Chars(unread) + later)[1..] == Chars(unread)[1..] + later;
    assert Chars(unread)[1..] == Chars(unread[1..]);
  }

  lemma NothingUnread(later: seq<Item>)
    ensures Chars([]) + later == later
  {
  }

  lemma AfterMark(e: ReadEvent, later: seq<Item>)
    ensures var was := ItemsOf(e) + later;
      (e == EndOfFile || e == Chunk([]) ==> First(was) == Eof && Later(was) == later) &&
      (e == Failure ==> First(was) == Err && Later(was) == later)
  {
  }

  class Reader {
    var readCnt: int
    var readPtr: nat
    const readBuf: array<Byte>
    var script: seq<ReadEvent>

    ghost predicate Valid()
      reads this
    {
      readBuf.Length == MAXLINE && (readCnt > 0 ==> readPtr + readCnt <= MAXLINE)
    }

    /** The bytes read and not yet given out. */
    ghost function Unread(): seq<Byte>
      requires Valid()
      reads this, readBuf
    {
      if readCnt > 0 then readBuf[readPtr..readPtr + readCnt] else []
    }

    /** The stream still to come. */
    ghost function Left(): seq<Item>
      requires Valid()
      reads this, readBuf
    {
      Chars(Unread()) + Stream(script)
    }

    constructor (script: seq<ReadEvent>)
      ensures Valid() && Left() == Stream(script) && fresh(readBuf)
    {
      readCnt, readPtr, this.script := 0, 0, script;
      readBuf := new Byte[MAXLINE](_ => 0);
      new;
      assert Chars([]) + Stream(script) == Stream(script);
    }

    /** One `read` into the buffer that is not interrupted; -1 on failure. */
    method ReadOnce() returns (rc: int)
      requires Valid() && readCnt <= 0 && (script == [] || script[0] != Interrupted)
      modifies this, readBuf
      ensures Valid() && rc == readCnt
      ensures var was := Stream(old(script));
        && (rc > 0 ==> Chars(Unread()) + Stream(script) == was && Unread() != [])
        && (rc == 0 ==> First(was) == Eof && Stream(script) == Later(was))
        && (rc < 0 ==> First(was) == Err && Stream(script) == Later(was))
    {
      if script == [] {
        readCnt := 0;
        return 0;
      }
      var e := script[0];
      script := script[1..];
      AfterMark(e, Stream(script));
      match e {
        case Chunk(bytes) =>
          var n := if |bytes| < MAXLINE then |bytes| else MAXLINE;
          forall k | 0 <= k < n {
            readBuf[k] := bytes[k];
          }
          readCnt, readPtr := n, 0;
          assert n > 0 ==> Unread() == bytes[..n];
        case EndOfFile => readCnt := 0;
        case Failure => readCnt := -1;
        case Interrupted => assert false;
      }
      rc := readCnt;
    }

    /** A read repeated while interrupted. */
    method Refill() returns (rc: int)
      requires Valid() && readCnt <= 0
      modifies this, readBuf
      ensures Valid() && rc == readCnt
      ensures rc > 0 ==> Left() == old(Left())
      ensures rc == 0 ==> First(old(Left())) == Eof && Left() == Later(old(Left()))
      ensures rc < 0 ==> First(old(Left())) == Err && Left() == Later(old(Left()))
    {
      hide Chars, First, Later;
      NothingUnread(Stream(script));
      while script != [] && script[0] == Interrupted
        invariant Valid() && readCnt <= 0 && Stream(script) == old(Left())
        decreases |script|
      {
        assert [] + Stream(script[1..]) == Stream(script[1..]);
        script := script[1..];
      }
      rc := ReadOnce();
      NothingUnread(Stream(script));
    }

    /** `my_read`: the next byte, end of file (0) or failure (-1). */
    method MyRead() returns (rc: int, c: Byte)
      requires Valid()
      modifies this, readBuf
      ensures Valid() && Left() == Later(old(Left()))
      ensures match First(old(Left()))
        case Char(b) => rc == 1 && c == b
        case Eof => rc == 0
        case Err => rc == -1
    {
      hide Chars, Stream, First, Later;
      c := 0;
      if readCnt <= 0 {
        rc := Refill();
        if rc < 0 {
          return -1, 0;
        }
        if rc == 0 {
          return 0, 0;
        }
      }
      ghost var unread := Unread();
      FirstUnread(unread, Stream(script));
      readCnt := readCnt - 1;
      c := readBuf[readPtr];
      readPtr := readPtr + 1;
      rc := 1;
      assert Unread() == unread[1..];
    }

    /** `readline` into `vptr`, which has room for `maxlen` bytes, terminator
        included.  The terminator is written even when `maxlen` is 0. */
    method Readline(vptr: array<Byte>, maxlen: nat) returns (n: int)
      requires Valid() && maxlen <= vptr.Length && vptr.Length > 0 && vptr != readBuf
      modifies this, readBuf, vptr
      ensures Valid()
      ensures var l := TakeLine(old(Left()), Room(maxlen));
        && |l.piece| <= Room(maxlen)
        && n == Returned(l) && Left() == l.rest && vptr[..|l.piece|] == l.piece
        && (l.why != Error ==> vptr[|l.piece|] == 0)
    {
      hide TakeLine, Stream, BytesOf, First, Later, Chars, Left, Unread, Valid, Onto;
      ghost var room := Room(maxlen);
      ghost var l := TakeLine(Left(), room);
      LineIs(Left(), room);
      LineStarts(l);
      var ptr := 0;
      n := 1;
      assert vptr[..0] == [];
      while n < maxlen
        invariant Valid() && 1 <= n <= room + 1 && ptr == n - 1
        invariant l == Onto(vptr[..ptr], TakeLine(Left(), room + 1 - n))
      {
        ghost var kept := vptr[..ptr];
        LineStep(kept, Left(), room + 1 - n);
        var rc, c := MyRead();
        if rc == 1 {
          vptr[ptr] := c;
          ptr := ptr + 1;
          assert vptr[..ptr] == kept + [c];
          if c == NL {
            break;
          }
        } else if rc == 0 {
          vptr[ptr] := 0;
          return n - 1;
        } else {
          return -1;
        }
        n := n + 1;
      }
      ghost var stored := vptr[..ptr];
      if n == room + 1 {
        LineEnds(stored, Left());
      }
      vptr[ptr] := 0;
      assert vptr[..ptr] == stored;
    }
  }
}
