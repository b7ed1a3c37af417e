/** How the chat server turns a client's byte stream into lines, through a buffer
    that is never cleared and searched as a C string. */
module ChatFraming {
  import opened Common

  const NUL: Byte := 0
  const NL: Byte := 10
  const CR: Byte := 13
  const INBUF := 2048
  const RECV_MAX := 1023
  const MSG_MAX := 1023

  // ----- the lines of a stream -----

  /** The job for one line: a carriage return at its end is dropped, an empty line
      gives none, and a long one is cut. */
  function JobOf(line: seq<Byte>): seq<seq<Byte>> {
    var stripped := if line != [] && line[|line| - 1] == CR then line[..|line| - 1] else line;
    if stripped == [] then [] else [stripped[..if |stripped| < MSG_MAX then |stripped| else MSG_MAX]]
  }

  /** The jobs of a text, and the unfinished line after them. */
  datatype Framed = Framed(jobs: seq<seq<Byte>>, pending: seq<Byte>)

  /** Reads a text byte by byte, after `pending`. */
  function Frame(pending: seq<Byte>, text: seq<Byte>): Framed
    decreases |text|
  {
    if text == [] then Framed([], pending)
    else if text[0] == NL then
      var rest := Frame([], text[1..]);
      Framed(JobOf(pending) + rest.jobs, rest.pending)
    else Frame(pending + [text[0]], text[1..])
  }

  predicate Free(text: seq<Byte>, b: Byte) { forall k | 0 <= k < |text| :: text[k] != b }

  /** No byte from `lo` up to `hi` is `b`. */
  predicate Lacks(mem: seq<Byte>, lo: nat, hi: nat, b: Byte)
    requires hi <= |mem|
  {
    forall j | lo <= j < hi :: mem[j] != b
  }

  /** Reading a text in two parts is reading it at once. */
  lemma {:induction false} FrameSplits(pending: seq<Byte>, a: seq<Byte>, b: seq<Byte>)
    ensures var first := Frame(pending, a); var second := Frame(first.pending, b);
      Frame(pending, a + b) == Framed(first.jobs + second.jobs, second.pending)
    decreases |a|
  {
    if a == [] {
      assert a + b == b && [] + Frame(pending, b).jobs == Frame(pending, b).jobs;
    } else {
      assert (a + b)[1..] == a[1..] + b;
      if a[0] == NL {
        FrameSplits([], a[1..], b);
        var first := Frame([], a[1..]);
        var second := Frame(first.pending, b);
        assert JobOf(pending) + (first.jobs + second.jobs) == JobOf(pending) + first.jobs + second.jobs;
      } else {
        FrameSplits(pending + [a[0]], a[1..], b);
      }
    }
  }

  lemma {:induction false} FrameOneLine(pending: seq<Byte>, line: seq<Byte>)
    requires Free(line, NL)
    ensures Frame(pending, line) == Framed([], pending + line)
    decreases |line|
  {
    if line == [] {
      assert pending + line == pending;
    } else {
      FrameOneLine(pending + [line[0]], line[1..]);
      assert pending + [line[0]] + line[1..] == pending + line;
    }
  }

  lemma FrameToNewline(line: seq<Byte>, rest: seq<Byte>)
    requires Free(line, NL)
    ensures Frame([], line + [NL] + rest) == Framed(JobOf(line) + Frame([], rest).jobs, Frame([], rest).pending)
  {
    FrameOneLine([], line);
    assert [] + line == line && line + [NL] + rest == line + ([NL] + rest);
    FrameSplits([], line, [NL] + rest);
    assert ([NL] + rest)[1..] == rest;
    assert [] + (JobOf(line) + Frame([], rest).jobs) == JobOf(line) + Frame([], rest).jobs;
  }

  lemma {:induction false} PendingIsFree(pending: seq<Byte>, text: seq<Byte>)
    requires Free(pending, NL)
    ensures Free(Frame(pending, text).pending, NL)
    decreases |text|
  {
    if text == [] {
    } else {
      if text[0] == NL {
        PendingIsFree([], text[1..]);
      } else {
        PendingIsFree(pending + [text[0]], text[1..]);
      }
    }
  }

  // ----- the buffer -----

  datatype Search = Found(at: nat) | NoNewline | RanOff

  /** `strchr` for a newline: the first newline or NUL from `i` on decides, whether
      received or not.  With neither up to its end, the search leaves the array. */
  function FindNewline(mem: seq<Byte>, i: nat): (r: Search)
    requires i <= |mem|
    ensures r.Found? ==> i <= r.at < |mem| && mem[r.at] == NL
    ensures r.Found? ==> forall j | i <= j < r.at :: mem[j] != NL && mem[j] != NUL
    decreases |mem| - i
  {
    if i == |mem| then RanOff
    else if mem[i] == NUL then NoNewline
    else if mem[i] == NL then Found(i)
    else FindNewline(mem, i + 1)
  }

  /** The C string that starts at `i`; there is a NUL at `end`. */
  function CString(mem: seq<Byte>, i: nat, end: nat): seq<Byte>
    requires i <= end < |mem| && mem[end] == NUL
    decreases end - i
  {
    if mem[i] == NUL then [] else [mem[i]] + CString(mem, i + 1, end)
  }

  /** The buffer after the line that ends at `k` has been terminated. */
  function Terminated(mem: seq<Byte>, start: nat, k: nat): (m: seq<Byte>)
    requires start <= k < |mem|
    ensures |m| == |mem| && m[k] == NUL && m[k + 1..] == mem[k + 1..]
  {
    var cut := mem[k := NUL];
    if k > start && cut[k - 1] == CR then cut[k - 1 := NUL] else cut
  }

  function JobsFrom(line: seq<Byte>): seq<seq<Byte>> {
    if line == [] then [] else [line[..if |line| < MSG_MAX then |line| else MSG_MAX]]
  }

  /** `inside` says that no search has left the array. */
  datatype Lines = Lines(mem: seq<Byte>, start: nat, jobs: seq<seq<Byte>>, inside: bool)

  /** The loop over complete lines, from `start`. */
  function TakeLines(mem: seq<Byte>, start: nat): (r: Lines)
    requires start <= |mem|
    ensures |r.mem| == |mem| && start <= r.start <= |mem|
    decreases |mem| - start
  {
    match FindNewline(mem, start)
    case RanOff => Lines(mem, start, [], false)
    case NoNewline => Lines(mem, start, [], true)
    case Found(k) =>
      var cut := Terminated(mem, start, k);
      var rest := TakeLines(cut, k + 1);
      rest.(jobs := JobsFrom(CString(cut, start, k)) + rest.jobs)
  }

  lemma TakeOneLine(mem: seq<Byte>, start: nat)
    requires start <= |mem|
    ensures match FindNewline(mem, start)
      case RanOff => TakeLines(mem, start) == Lines(mem, start, [], false)
      case NoNewline => TakeLines(mem, start) == Lines(mem, start, [], true)
      case Found(k) =>
        var cut := Terminated(mem, start, k);
        var rest := TakeLines(cut, k + 1);
        TakeLines(mem, start) == rest.(jobs := JobsFrom(CString(cut, start, k)) + rest.jobs)
  {
  }

  /** A client is in a fault once a search has left its array: what the program does
      then depends on what lies behind the array. */
  datatype Status = Connected | Dropped | Faulted

  /** A client's buffer; `len` is the count of bytes kept. */
  datatype Client = Client(mem: seq<Byte>, len: int, status: Status)

  function Overwrite(mem: seq<Byte>, at: nat, bytes: seq<Byte>): (m: seq<Byte>)
    requires at + |bytes| <= |mem|
    ensures |m| == |mem|
  {
    mem[..at] + bytes + mem[at + |bytes|..]
  }

  /** The unfinished line, from `start` on and `n` bytes long, moved to the front. */
  function Compact(mem: seq<Byte>, start: nat, n: int): (m: seq<Byte>)
    requires start + n <= |mem|
    ensures |m| == |mem|
  {
    if n > 0 then Overwrite(mem, 0, mem[start..start + n]) else mem
  }

  datatype Handled = Handled(client: Client, jobs: seq<seq<Byte>>)

  /** `handle_client_message` for the bytes one `recv` returned. */
  function Handle(c: Client, chunk: seq<Byte>): Handled
    requires |c.mem| == INBUF && 0 <= c.len < INBUF
    ensures |Handle(c, chunk).client.mem| == INBUF
  {
    if c.len + |chunk| >= INBUF then Handled(c.(status := Dropped), [])
    else
      var r := TakeLines(Overwrite(c.mem, c.len, chunk), 0);
      var remaining := c.len + |chunk| - r.start;
      if !r.inside then Handled(Client(r.mem, c.len + |chunk|, Faulted), r.jobs)
      else
        Handled(Client(Compact(r.mem, r.start, remaining), remaining, Connected), r.jobs)
  }

  /** The client is dropped exactly if what it sent does not fit beside what is kept, and
      then nothing else happens; a fault leaves all of it counted as kept; and otherwise
      what is kept is what no line has taken. */
  lemma OutcomeIs(c: Client, chunk: seq<Byte>)
    requires |c.mem| == INBUF && 0 <= c.len < INBUF && c.status == Connected
    ensures var h := Handle(c, chunk); var all := c.len + |chunk|;
      && (h.client.status == Dropped <==> all >= INBUF)
      && (h.client.status == Dropped ==> h.client == c.(status := Dropped) && h.jobs == [])
      && (h.client.status == Faulted ==> h.client.len == all)
      && (all < INBUF ==>
            var r := TakeLines(Overwrite(c.mem, c.len, chunk), 0);
            && h.jobs == r.jobs && (h.client.status == Faulted <==> !r.inside)
            && (r.inside ==> h.client.len == all - r.start))
  {
  }

  // ----- one call -----

  lemma {:induction false} NothingFound(mem: seq<Byte>, i: nat, end: nat)
    requires i <= end < |mem| && !FindNewline(mem, i).Found? && mem[|mem| - 1] == NUL
    requires forall j | i <= j < end :: mem[j] != NUL
    ensures FindNewline(mem, i) == NoNewline && forall j | i <= j < end :: mem[j] != NL
    decreases |mem| - i
  {
    if mem[i] != NUL {
      NothingFound(mem, i + 1, if i < end then end else i + 1);
    }
  }

  lemma {:induction false} CStringIs(mem: seq<Byte>, i: nat, end: nat, far: nat)
    requires i <= end <= far < |mem| && mem[end] == NUL == mem[far] && forall j | i <= j < end :: mem[j] != NUL
    ensures CString(mem, i, far) == mem[i..end]
    decreases end - i
  {
    if i < end {
      CStringIs(mem, i + 1, end, far);
    }
  }

  /** The job queued for a line that has been terminated in place is the line's job:
      without its carriage return, none if empty, cut if long. */
  lemma TerminatedLine(mem: seq<Byte>, start: nat, k: nat)
    requires start <= k < |mem| && forall j | start <= j < k :: mem[j] != NUL
    ensures JobsFrom(CString(Terminated(mem, start, k), start, k)) == JobOf(mem[start..k])
  {
    var cut := Terminated(mem, start, k);
    var end := if k > start && mem[k - 1] == CR then k - 1 else k;
    CStringIs(cut, start, end, k);
    assert cut[start..end] == mem[start..end];
    hide CString, Terminated;
    Stripped(mem, start, end, k);
  }

  lemma Stripped(mem: seq<Byte>, start: nat, end: nat, k: nat)
    requires start <= k < |mem| && end == if k > start && mem[k - 1] == CR then k - 1 else k
    ensures JobsFrom(mem[start..end]) == JobOf(mem[start..k])
  {
    var line := mem[start..k];
    if end != k {
      assert line[..|line| - 1] == mem[start..end];
    }
  }

  /** With no NUL received, no newline beyond what was received and a NUL at the
      array's end, the lines taken are the lines received, no newline stays behind
      and no search leaves the array. */
  lemma {:induction false} TakesTheLines(mem: seq<Byte>, start: nat, end: nat)
    requires start <= end < |mem| && mem[|mem| - 1] == NUL
    requires Lacks(mem, start, end, NUL) && Lacks(mem, end, |mem|, NL)
    ensures var r := TakeLines(mem, start); var f := Frame([], mem[start..end]);
      && r.inside && r.mem[|mem| - 1] == NUL
      && r.jobs == f.jobs && start <= r.start <= end && r.mem[r.start..end] == f.pending
      && r.mem[..start] == mem[..start]
      && Lacks(r.mem, r.start, end, NUL) && Lacks(r.mem, start, |mem|, NL)
    decreases |mem| - start
  {
    hide TakeLines, Frame, FindNewline, CString, Terminated, JobsFrom, JobOf;
    var found := FindNewline(mem, start);
    var text := mem[start..end];
    TakeOneLine(mem, start);
    if !found.Found? {
      NothingFound(mem, start, end);
      FrameOneLine([], text);
      assert [] + text == text;
    } else {
      var k := found.at;
      var cut := Terminated(mem, start, k);
      TerminatedLine(mem, start, k);
      CutIs(mem, start, k, end);
      TakesTheLines(cut, k + 1, end);
      FrameToNewline(mem[start..k], mem[k + 1..end]);
      SamePrefix(TakeLines(cut, k + 1).mem, cut, mem, start, k);
    }
  }

  /** Terminating a line touches nothing outside it and leaves no newline in it. */
  lemma CutIs(mem: seq<Byte>, start: nat, k: nat, end: nat)
    requires start <= k < end <= |mem| && mem[k] == NL && forall j | start <= j < k :: mem[j] != NL
    ensures var cut := Terminated(mem, start, k);
      && (forall j | 0 <= j < |mem| && (j < start || j > k) :: cut[j] == mem[j])
      && (forall j | start <= j <= k :: cut[j] != NL)
      && cut[k + 1..end] == mem[k + 1..end]
    ensures mem[start..end] == mem[start..k] + [NL] + mem[k + 1..end]
  {
    assert forall j | k < j < |mem| :: mem[j] == mem[k + 1..][j - (k + 1)];
  }

  lemma SamePrefix(after: seq<Byte>, cut: seq<Byte>, mem: seq<Byte>, start: nat, k: nat)
    requires start <= k < |mem| == |cut| == |after| && after[..k + 1] == cut[..k + 1]
    requires (forall j | 0 <= j < start :: cut[j] == mem[j]) && forall j | start <= j <= k :: cut[j] != NL
    ensures after[..start] == mem[..start] && forall j | start <= j <= k :: after[j] != NL
  {
    assert forall j | 0 <= j <= k :: after[j] == after[..k + 1][j] == cut[..k + 1][j];
  }

  /** The bytes kept are an unfinished line, nothing stale but the next byte to be
      overwritten can be a newline, and the last byte, never overwritten, is NUL. */
  ghost predicate Clean(c: Client) {
    && |c.mem| == INBUF && 0 <= c.len < INBUF && c.status == Connected && c.mem[INBUF - 1] == NUL
    && (forall j | 0 <= j < c.len :: c.mem[j] != NL && c.mem[j] != NUL)
    && (forall j | c.len < j < INBUF :: c.mem[j] != NL)
  }

  predicate Receivable(chunk: seq<Byte>) { 1 <= |chunk| <= RECV_MAX && Free(chunk, NUL) }

  function Pending(c: Client): seq<Byte>
    requires 0 <= c.len <= |c.mem|
  {
    c.mem[..c.len]
  }

  /** One call queues exactly the lines its bytes complete, and searches nowhere but
      in its array, unless the bytes overflow the buffer. */
  lemma HandlesOneChunk(c: Client, chunk: seq<Byte>)
    requires Clean(c) && Receivable(chunk)
    ensures var h := Handle(c, chunk); var f := Frame(Pending(c), chunk);
      && h.client.status == (if |Pending(c)| + |chunk| >= INBUF then Dropped else Connected)
      && (h.client.status != Dropped ==> Clean(h.client) && h.jobs == f.jobs && Pending(h.client) == f.pending)
  {
    PendingIs(c);
    hide *;
    HandleIs(c, chunk);
    if c.len + |chunk| < INBUF {
      HandlesWhole(c, chunk);
    }
  }

  lemma HandlesWhole(c: Client, chunk: seq<Byte>)
    requires Clean(c) && Receivable(chunk) && |c.mem| == INBUF && 0 <= c.len && c.len + |chunk| < INBUF
    ensures var h := Handle(c, chunk); var f := Frame(Pending(c), chunk);
      && h.client.status == Connected && h.jobs == f.jobs
      && Clean(h.client) && 0 <= h.client.len <= INBUF && Pending(h.client) == f.pending
  {
    hide *;
    HandleIs(c, chunk);
    LinesReceived(c, chunk);
    var r := TakeLines(Overwrite(c.mem, c.len, chunk), 0);
    Moved(r.mem, r.start, c.len + |chunk|);
  }

  lemma PendingIs(c: Client)
    requires Clean(c)
    ensures |c.mem| == INBUF && 0 <= c.len < INBUF && |Pending(c)| == c.len && Free(Pending(c), NL)
  {
  }

  /** The lines taken are those that the new bytes complete. */
  lemma LinesReceived(c: Client, chunk: seq<Byte>)
    requires Clean(c) && Receivable(chunk) && c.len + |chunk| < INBUF
    ensures var r := TakeLines(Overwrite(c.mem, c.len, chunk), 0);
      var end, f := c.len + |chunk|, Frame(Pending(c), chunk);
      && r.inside && r.mem[INBUF - 1] == NUL && r.start <= end
      && r.jobs == f.jobs && r.mem[r.start..end] == f.pending
      && Lacks(r.mem, 0, INBUF, NL) && Lacks(r.mem, r.start, end, NUL)
  {
    PendingIs(c);
    hide *;
    var mem, end := Overwrite(c.mem, c.len, chunk), c.len + |chunk|;
    Received(c, chunk);
    TakesTheLines(mem, 0, end);
    FrameAfter(Pending(c), chunk);
  }

  lemma HandleIs(c: Client, chunk: seq<Byte>)
    requires |c.mem| == INBUF && 0 <= c.len < INBUF
    ensures c.len + |chunk| >= INBUF ==> Handle(c, chunk) == Handled(c.(status := Dropped), [])
    ensures c.len + |chunk| < INBUF ==>
      var r := TakeLines(Overwrite(c.mem, c.len, chunk), 0);
      var n := c.len + |chunk| - r.start;
      r.inside ==> Handle(c, chunk) == Handled(Client(Compact(r.mem, r.start, n), n, Connected), r.jobs)
  {
    hide TakeLines, Overwrite, Compact;
  }

  lemma Received(c: Client, chunk: seq<Byte>)
    requires Clean(c) && Receivable(chunk) && c.len + |chunk| < INBUF
    ensures var mem, end := Overwrite(c.mem, c.len, chunk), c.len + |chunk|;
      && mem[0..end] == Pending(c) + chunk && mem[INBUF - 1] == NUL
      && Lacks(mem, 0, end, NUL) && Lacks(mem, end, |mem|, NL)
  {
    var mem, end := Overwrite(c.mem, c.len, chunk), c.len + |chunk|;
    assert forall j | c.len <= j < end :: mem[j] == chunk[j - c.len];
  }

  lemma FrameAfter(pending: seq<Byte>, chunk: seq<Byte>)
    requires Free(pending, NL)
    ensures Frame([], pending + chunk) == Frame(pending, chunk)
  {
    FrameOneLine([], pending);
    assert [] + pending == pending;
    FrameSplits([], pending, chunk);
    assert [] + Frame(pending, chunk).jobs == Frame(pending, chunk).jobs;
  }

  /** Moving the unfinished line to the front. */
  lemma Moved(mem: seq<Byte>, start: nat, end: nat)
    requires start <= end < |mem| == INBUF && mem[INBUF - 1] == NUL
    requires Lacks(mem, 0, |mem|, NL) && Lacks(mem, start, end, NUL)
    ensures var c := Client(Compact(mem, start, end - start), end - start, Connected);
      Clean(c) && Pending(c) == mem[start..end]
  {
    hide Overwrite;
    var kept := mem[start..end];
    var m := Compact(mem, start, end - start);
    if kept != [] {
      OverwrittenAt(mem, 0, kept);
      assert m[..|kept|] == kept;
      forall j | 0 <= j < |m| ensures m[j] != NL && (j < |kept| ==> m[j] != NUL) {
        assert m[j] == if j < |kept| then kept[j] else mem[j];
        assert j < |kept| ==> kept[j] == mem[start + j];
      }
    }
  }

  lemma OverwrittenAt(mem: seq<Byte>, at: nat, bytes: seq<Byte>)
    requires at + |bytes| <= |mem|
    ensures forall j | 0 <= j < |mem| ::
      Overwrite(mem, at, bytes)[j] == if at <= j < at + |bytes| then bytes[j - at] else mem[j]
  {
  }

  // ----- whole streams -----

  /** All the calls for a client, until it is dropped or in a fault. */
  function Feed(c: Client, chunks: seq<seq<Byte>>): Handled
    requires |c.mem| == INBUF && c.len < INBUF
    decreases |chunks|
  {
    if chunks == [] || c.status != Connected || c.len < 0 then Handled(c, [])
    else
      var h := Handle(c, chunks[0]);
      var rest := Feed(h.client, chunks[1..]);
      Handled(rest.client, h.jobs + rest.jobs)
  }

  function Stream(chunks: seq<seq<Byte>>): seq<Byte> {
    if chunks == [] then [] else chunks[0] + Stream(chunks[1..])
  }

  ghost predicate AllReceivable(chunks: seq<seq<Byte>>) { forall i | 0 <= i < |chunks| :: Receivable(chunks[i]) }

  /** However the stream is split, no search leaves the array, jobs are queued in the
      order of the stream's lines, and all of them unless the client is dropped. */
  lemma {:induction false} SplitDoesNotMatter(c: Client, chunks: seq<seq<Byte>>)
    requires Clean(c) && AllReceivable(chunks)
    ensures var r := Feed(c, chunks); var f := Frame(Pending(c), Stream(chunks));
      && r.client.status != Faulted && r.jobs <= f.jobs
      && (r.client.status != Dropped ==> Clean(r.client) && r.jobs == f.jobs && Pending(r.client) == f.pending)
    decreases |chunks|
  {
    if chunks == [] {
    } else {
      HandlesOneChunk(c, chunks[0]);
      var h := Handle(c, chunks[0]);
      if h.client.status == Connected {
        SplitDoesNotMatter(h.client, chunks[1..]);
        FrameSplits(Pending(c), chunks[0], Stream(chunks[1..]));
      }
    }
  }

  /** No line of the text, begun with `pending`, is longer than `max`. */
  predicate LinesUpTo(max: nat, pending: seq<Byte>, text: seq<Byte>)
    decreases |text|
  {
    && |pending| <= max
    && (text == [] || LinesUpTo(max, if text[0] == NL then [] else pending + [text[0]], text[1..]))
  }

  lemma {:induction false} LinesUpToSplits(max: nat, pending: seq<Byte>, a: seq<Byte>, b: seq<Byte>)
    requires LinesUpTo(max, pending, a + b)
    ensures LinesUpTo(max, Frame(pending, a).pending, b)
    decreases |a|
  {
    if a == [] {
      assert a + b == b;
    } else {
      assert (a + b)[1..] == a[1..] + b;
      LinesUpToSplits(max, if a[0] == NL then [] else pending + [a[0]], a[1..], b);
    }
  }

  /** A client whose lines have at most 1,024 bytes is never dropped. */
  lemma {:induction false} ShortLinesAreNeverDropped(c: Client, chunks: seq<seq<Byte>>)
    requires Clean(c) && AllReceivable(chunks) && LinesUpTo(1024, Pending(c), Stream(chunks))
    ensures Feed(c, chunks).client.status == Connected
    decreases |chunks|
  {
    if chunks == [] {
    } else {
      HandlesOneChunk(c, chunks[0]);
      LinesUpToSplits(1024, Pending(c), chunks[0], Stream(chunks[1..]));
      ShortLinesAreNeverDropped(Handle(c, chunks[0]).client, chunks[1..]);
    }
  }

  // ----- what the allocated buffer must not hold -----

  /** Every stream without NULs is turned into its lines, up to an overflow, and no
      search leaves the array. */
  ghost predicate AlwaysRight(c: Client)
    requires |c.mem| == INBUF && 0 <= c.len < INBUF
  {
    forall chunks | AllReceivable(chunks) ::
      var r, f := Feed(c, chunks), Frame(Pending(c), Stream(chunks));
      r.client.status != Faulted && r.jobs <= f.jobs && (r.client.status == Dropped || r.jobs == f.jobs)
  }

  function Letters(n: nat): (s: seq<Byte>)
    ensures |s| == n && forall k | 0 <= k < n :: s[k] == 97
  {
    seq(n, _ => 97)
  }

  /** Letters up to a stale newline make the server queue a line that was never
      finished; letters up to a last byte that is no NUL make it search beyond. */
  lemma {:induction false} StaleByteShows(c: Client, k: nat) returns (chunks: seq<seq<Byte>>)
    requires |c.mem| == INBUF && 0 <= c.len < k < INBUF && c.status == Connected
    requires c.mem[k] == NL || (k == INBUF - 1 && c.mem[k] != NUL)
    requires forall j | 0 <= j < c.len :: c.mem[j] != NL && c.mem[j] != NUL
    ensures AllReceivable(chunks) && Free(Stream(chunks), NL)
    ensures var r := Feed(c, chunks); r.client.status == Faulted || (r.client.status == Connected && r.jobs != [])
    decreases k - c.len
  {
    hide Feed, Stream, Overwrite, Letters, FindNewline, Terminated, CString;
    var n := if k - c.len < RECV_MAX then k - c.len else RECV_MAX;
    var chunk, mem := Letters(n), Overwrite(c.mem, c.len, Letters(n));
    var h := Handle(c, chunk);
    LettersAt(c, n);
    LettersStream(n);
    if c.len + n == k {
      ShownIfClear(mem, 0, k);
    }
    if FindNewline(mem, 0) != NoNewline {
      chunks := [chunk];
      TakeOneLine(mem, 0);
      if FindNewline(mem, 0).Found? {
        PhantomLine(mem, FindNewline(mem, 0).at);
      }
      FeedOne(c, chunk);
    } else {
      NoNewlineMeans(mem, 0, c.len + n);
      HandleNothing(c, chunk);
      var more := StaleByteShows(h.client, k);
      chunks := [chunk] + more;
      FeedFirst(c, chunk, more);
      StreamFirst(chunk, more);
    }
  }

  lemma {:induction false} NoNewlineMeans(mem: seq<Byte>, i: nat, end: nat)
    requires i <= end <= |mem| && FindNewline(mem, i) == NoNewline
    requires forall j | i <= j < end :: mem[j] != NUL
    ensures forall j | i <= j < end :: mem[j] != NL
    decreases |mem| - i
  {
    if i < end {
      NoNewlineMeans(mem, i + 1, end);
    }
  }

  lemma HandleNothing(c: Client, chunk: seq<Byte>)
    requires |c.mem| == INBUF && 0 <= c.len && c.len + |chunk| < INBUF && chunk != []
    requires FindNewline(Overwrite(c.mem, c.len, chunk), 0) == NoNewline
    ensures Handle(c, chunk) == Handled(Client(Overwrite(c.mem, c.len, chunk), c.len + |chunk|, Connected), [])
  {
    var mem := Overwrite(c.mem, c.len, chunk);
    assert Overwrite(mem, 0, mem[0..c.len + |chunk|]) == mem;
  }

  lemma LettersAt(c: Client, n: nat)
    requires |c.mem| == INBUF && 0 <= c.len && c.len + n < INBUF
    ensures var mem := Overwrite(c.mem, c.len, Letters(n));
      forall j | 0 <= j < INBUF :: mem[j] == if c.len <= j < c.len + n then 97 else c.mem[j]
  {
  }

  lemma LettersStream(n: nat)
    requires 1 <= n <= RECV_MAX
    ensures Receivable(Letters(n)) && Stream([Letters(n)]) == Letters(n) && Free(Letters(n), NL)
  {
    assert [Letters(n)][1..] == [] && Letters(n) + [] == Letters(n);
  }

  lemma FeedOne(c: Client, chunk: seq<Byte>)
    requires |c.mem| == INBUF && 0 <= c.len < INBUF && c.status == Connected
    ensures Feed(c, [chunk]) == Handle(c, chunk)
  {
    var h := Handle(c, chunk);
    assert [chunk][1..] == [] && h.jobs + [] == h.jobs;
  }

  lemma FeedFirst(c: Client, chunk: seq<Byte>, more: seq<seq<Byte>>)
    requires |c.mem| == INBUF && 0 <= c.len < INBUF && c.status == Connected
    ensures var rest := Feed(Handle(c, chunk).client, more);
      Feed(c, [chunk] + more) == Handled(rest.client, Handle(c, chunk).jobs + rest.jobs)
  {
    assert ([chunk] + more)[1..] == more;
  }

  lemma StreamFirst(chunk: seq<Byte>, more: seq<seq<Byte>>)
    ensures Stream([chunk] + more) == chunk + Stream(more)
  {
    assert ([chunk] + more)[1..] == more;
  }

  lemma PhantomLine(mem: seq<Byte>, k: nat)
    requires FindNewline(mem, 0) == Found(k) && k > 0 && (k > 1 || mem[0] != CR)
    ensures TakeLines(mem, 0).jobs != []
  {
    TerminatedLine(mem, 0, k);
    assert mem[0..k][|mem[0..k]| - 1] == mem[k - 1];
  }

  lemma {:induction false} ShownIfClear(mem: seq<Byte>, i: nat, k: nat)
    requires i <= k < |mem| && (mem[k] == NL || (k == |mem| - 1 && mem[k] != NUL))
    requires forall j | i <= j < k :: mem[j] != NUL
    ensures FindNewline(mem, i) != NoNewline
    decreases k - i
  {
    if i < k && mem[i] != NL {
      ShownIfClear(mem, i + 1, k);
    }
  }

  /** The server turns every stream into its lines, within its array, if and only if
      the allocated buffer happens to end in NUL and to hold no newline past its first
      byte, as when it is cleared. */
  lemma RightExactlyForSuchMemory(mem: seq<Byte>)
    requires |mem| == INBUF
    ensures AlwaysRight(Client(mem, 0, Connected)) <==>
      mem[INBUF - 1] == NUL && forall k | 1 <= k < INBUF - 1 :: mem[k] != NL
  {
    var c := Client(mem, 0, Connected);
    if k :| 1 <= k < INBUF && (mem[k] == NL || (k == INBUF - 1 && mem[k] != NUL)) {
      var chunks := StaleByteShows(c, k);
      FrameOneLine([], Stream(chunks));
    } else {
      forall chunks | AllReceivable(chunks)
        ensures var r, f := Feed(c, chunks), Frame(Pending(c), Stream(chunks));
          r.client.status != Faulted && r.jobs <= f.jobs && (r.client.status == Dropped || r.jobs == f.jobs)
      {
        SplitDoesNotMatter(c, chunks);
      }
    }
  }

  /** Memory without newline or NUL is among what fails: ten letters are enough. */
  lemma UnterminatedMemoryFails(mem: seq<Byte>)
    requires |mem| == INBUF && Free(mem, NL) && Free(mem, NUL)
    ensures Receivable(Letters(10)) && Feed(Client(mem, 0, Connected), [Letters(10)]).client.status == Faulted
  {
    hide Letters, Overwrite, FindNewline;
    var c := Client(mem, 0, Connected);
    LettersStream(10);
    LettersAt(c, 10);
    var after := Overwrite(mem, 0, Letters(10));
    RunsOff(after, 0);
    TakeOneLine(after, 0);
    FeedOne(c, Letters(10));
  }

  lemma {:induction false} RunsOff(mem: seq<Byte>, i: nat)
    requires i <= |mem| && forall j | i <= j < |mem| :: mem[j] != NL && mem[j] != NUL
    ensures FindNewline(mem, i) == RanOff
    decreases |mem| - i
  {
    if i < |mem| {
      RunsOff(mem, i + 1);
    }
  }

  // ----- the program's own form -----

  class ClientBuffer {
    const inbuf: array<Byte>
    var inbufLen: int
    var status: Status

    ghost predicate Is(c: Client)
      reads this, inbuf
    {
      inbuf.Length == INBUF && inbuf[..] == c.mem && inbufLen == c.len && status == c.status
    }

    /** A newly allocated client; `fill` is what its memory happens to hold. */
    constructor (fill: seq<Byte>)
      requires |fill| == INBUF
      ensures Is(Client(fill, 0, Connected)) && fresh(inbuf)
    {
      inbuf := new Byte[INBUF](i requires 0 <= i < INBUF => fill[i]);
      inbufLen, status := 0, Connected;
      new;
      assert inbuf[..] == fill;
    }

    /** `memcpy` into the buffer. */
    method Copy(at: nat, bytes: seq<Byte>)
      requires at + |bytes| <= inbuf.Length
      modifies inbuf
      ensures inbuf[..] == Overwrite(old(inbuf[..]), at, bytes)
    {
      forall k | 0 <= k < |bytes| {
        inbuf[at + k] := bytes[k];
      }
    }

    /** Puts an end to the line that `k` ends. */
    method Terminate(lineStart: nat, k: nat)
      requires lineStart <= k < inbuf.Length
      modifies inbuf
      ensures inbuf[..] == Terminated(old(inbuf[..]), lineStart, k)
    {
      ghost var mem: seq<Byte> := inbuf[..];
      ghost var cut: seq<Byte> := mem[k := NUL];
      inbuf[k] := NUL;
      assert inbuf[..] == cut;
      if k > lineStart && inbuf[k - 1] == CR {
        inbuf[k - 1] := NUL;
        assert inbuf[..] == cut[k - 1 := NUL];
      }
    }

    /** A job for a nonempty line, terminated at `k`: its bytes up to the NUL or to the
        size of a message. */
    method QueueLine(lineStart: nat, k: nat, queued: seq<seq<Byte>>) returns (jobs: seq<seq<Byte>>)
      requires lineStart <= k < inbuf.Length && inbuf[k] == NUL
      ensures jobs == queued + JobsFrom(CString(inbuf[..], lineStart, k))
    {
      jobs := queued;
      if inbuf[lineStart] == NUL {
        return;
      }
      ghost var line := CString(inbuf[..], lineStart, k);
      var i, msg := lineStart, [];
      assert [] + line == line;
      while |msg| < MSG_MAX && inbuf[i] != NUL
        invariant lineStart <= i <= k && |msg| == i - lineStart <= MSG_MAX
        invariant line == msg + CString(inbuf[..], i, k)
      {
        assert msg + ([inbuf[i]] + CString(inbuf[..], i + 1, k)) == msg + [inbuf[i]] + CString(inbuf[..], i + 1, k);
        msg := msg + [inbuf[i]];
        i := i + 1;
      }
      jobs := jobs + [msg];
    }

    /** The loop over complete lines. */
    method ExtractLines() returns (lineStart: nat, jobs: seq<seq<Byte>>, inside: bool)
      modifies inbuf
      ensures lineStart <= inbuf.Length && Lines(inbuf[..], lineStart, jobs, inside) == TakeLines(old(inbuf[..]), 0)
    {
      hide TakeLines, FindNewline, Terminated, CString, JobsFrom;
      jobs, lineStart := [], 0;
      ghost var all := TakeLines(inbuf[..], 0);
      assert [] + all.jobs == all.jobs;
      var newline := FindNewline(inbuf[..], 0);
      while newline.Found?
        invariant 0 <= lineStart <= inbuf.Length && newline == FindNewline(inbuf[..], lineStart)
        invariant var r := TakeLines(inbuf[..], lineStart); all == r.(jobs := jobs + r.jobs)
        decreases inbuf.Length - lineStart
      {
        var k := newline.at;
        ghost var mem: seq<Byte> := inbuf[..];
        TakeOneLine(mem, lineStart);
        Terminate(lineStart, k);
        ghost var cut: seq<Byte> := inbuf[..];
        ghost var before, later := jobs, TakeLines(cut, k + 1).jobs;
        jobs := QueueLine(lineStart, k, jobs);
        assert before + (JobsFrom(CString(cut, lineStart, k)) + later) == jobs + later;
        lineStart := k + 1;
        newline := FindNewline(inbuf[..], lineStart);
      }
      inside := newline == NoNewline;
      TakeOneLine(inbuf[..], lineStart);
      assert jobs + [] == jobs;
    }

    method HandleMessage(chunk: seq<Byte>, ghost c: Client) returns (jobs: seq<seq<Byte>>)
      requires Is(c) && 0 <= c.len < INBUF
      modifies this, inbuf
      ensures Is(Handle(c, chunk).client) && jobs == Handle(c, chunk).jobs
    {
      jobs := [];
      if inbufLen + |chunk| >= INBUF {
        status := Dropped;
        return;
      }
      status := Connected;
      Copy(inbufLen, chunk);
      inbufLen := inbufLen + |chunk|;
      var lineStart, inside;
      lineStart, jobs, inside := ExtractLines();
      if !inside {
        status := Faulted;
        return;
      }
      var remaining := inbufLen - lineStart;
      if remaining > 0 {
        Copy(0, inbuf[lineStart..lineStart + remaining]);
      }
      inbufLen := remaining;
    }
  }
}
