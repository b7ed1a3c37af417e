/** The printers and parsers in the program's own form: loops over arrays and
    moving indices, computing the functions of InetText. */
module InetAddress {
  import opened Common
  import opened InetText
  import opened InetRoundTrip

  const INADDRSZ := 4
  const IN6ADDRSZ := 16
  const TMP_SIZE := 46

  // ----- printing -----

  /** Writes `piece` at `tp` and moves past it, when the whole text is what has
      been written, then `piece`, then `rest`. */
  method Emit(tmp: array<char>, tp: nat, piece: string, ghost rest: string, ghost text: string) returns (end: nat)
    requires tp <= tmp.Length && tmp[..tp] + (piece + rest) == text && |text| <= tmp.Length
    modifies tmp
    ensures end == tp + |piece| <= tmp.Length && tmp[..end] + rest == text
  {
    ghost var written := tmp[..tp];
    forall k | 0 <= k < |piece| {
      tmp[tp + k] := piece[k];
    }
    end := tp + |piece|;
    assert tmp[..end] == written + piece;
    Assoc(written, piece, rest);
  }

  /** Refused for want of room; copied with its terminator; or copied so that the
      terminator goes just past the room given, over whatever is there, or past the
      array if nothing is. */
  datatype Copied = Refused | Fits | PastEnd

  /** What stands from `k` on once a terminator has been written there. */
  function Ended(s: string, k: nat): string { if k < |s| then ['\0'] + s[k + 1..] else [] }

  /** `inet_ntop4` into the `size` characters at `at`.  The size test leaves the
      terminator out of the count. */
  method Ntop4(src: seq<Byte>, dst: array<char>, at: nat, size: nat) returns (r: Copied)
    requires |src| == 4 && at + size <= dst.Length
    modifies dst
    ensures r == Refused <==> |Quad(src)| > size
    ensures r == PastEnd <==> |Quad(src)| == size
    ensures r == Refused ==> dst[..] == old(dst[..])
    ensures r != Refused ==> dst[..] == old(dst[..at]) + Quad(src) + Ended(old(dst[..]), at + |Quad(src)|)
  {
    var tmp := Dec(src[0]) + "." + Dec(src[1]) + "." + Dec(src[2]) + "." + Dec(src[3]);
    assert tmp == Quad(src);
    hide Dec, Quad;
    if |tmp| > size {
      return Refused;
    }
    forall k | 0 <= k < |tmp| {
      dst[at + k] := tmp[k];
    }
    if at + |tmp| < dst.Length {
      dst[at + |tmp|] := '\0';
    }
    return if |tmp| == size then PastEnd else Fits;
  }

  /** So success does not mean that the text and its terminator fit: with room for
      seven characters, the eight for 1.2.3.4 are written. */
  lemma SevenIsTooSmall()
    ensures |Quad([1, 2, 3, 4])| == 7
  {
  }

  /** The sizes at which it can happen. */
  lemma TerminatorCanPassEndExactlyAt(size: nat)
    ensures (exists src: seq<Byte> :: |src| == 4 && |Quad(src)| == size) <==> 7 <= size <= 15
  {
    if 7 <= size <= 15 {
      var a := if size <= 9 then size - 6 else 3;
      var b := if size <= 9 then 1 else if size <= 11 then size - 8 else 3;
      var c := if size <= 11 then 1 else if size <= 13 then size - 10 else 3;
      var d := if size <= 13 then 1 else size - 12;
      OfLength(a);
      OfLength(b);
      OfLength(c);
      OfLength(d);
      var src := [WithDigits(a), WithDigits(b), WithDigits(c), WithDigits(d)];
      assert |src| == 4 && |Quad(src)| == size;
    }
    forall src: seq<Byte> | |src| == 4 ensures 7 <= |Quad(src)| <= 15 {
      DecLength(src[0]);
      DecLength(src[1]);
      DecLength(src[2]);
      DecLength(src[3]);
    }
  }

  function WithDigits(n: nat): Byte { if n <= 1 then 1 else if n == 2 then 10 else 100 }

  lemma OfLength(n: nat)
    requires 1 <= n <= 3
    ensures |Dec(WithDigits(n))| == n
  {
    assert Dec(1) == [Digit(1)] && Dec(10) == Dec(1) + [Digit(0)] && Dec(100) == Dec(10) + [Digit(0)];
  }

  /** The copy of the bytes into words. */
  method CopyWords(src: seq<Byte>) returns (words: array<Word>)
    requires |src| == 16
    ensures fresh(words) && words[..] == Words(src)
  {
    words := new Word[8](_ => 0);
    for i := 0 to 16
      invariant forall k | 0 <= k < 8 ::
        words[k] == (if 2 * k < i then src[2 * k] as int * 256 else 0) + (if 2 * k + 1 < i then src[2 * k + 1] else 0)
    {
      // The bits being or-ed in are still zero, so this is the bitwise or.
      words[i / 2] := words[i / 2] + if i % 2 == 0 then src[i] as int * 256 else src[i];
    }
  }

  /** Every zero run that ends by `end` is no longer than `best`, nor as long and
      further left. */
  ghost predicate BestUpTo(words: seq<Word>, best: Run, end: int) {
    if best.base == -1 then forall b, l | ZeroRun(words, b, l) && b + l <= end :: l < 1
    else
      && ZeroRun(words, best.base, best.len) && best.len >= 1 && best.base + best.len <= end
      && forall b, l | ZeroRun(words, b, l) && b + l <= end ::
           l <= best.len && (l == best.len ==> best.base <= b)
  }

  /** `cur` is the zero run that ends just before `i`. */
  ghost predicate CurrentRun(words: seq<Word>, cur: Run, i: nat)
    requires i <= |words|
  {
    if cur.base == -1 then i == 0 || words[i - 1] != 0
    else
      && ZeroRun(words, cur.base, cur.len) && cur.len >= 1 && cur.base + cur.len == i
      && (cur.base == 0 || words[cur.base - 1] != 0)
  }

  /** A finished run replaces a shorter one. */
  function Better(best: Run, cur: Run): Run {
    if best.base == -1 || cur.len > best.len then cur else best
  }

  lemma FinishRun(words: seq<Word>, best: Run, cur: Run, i: nat, end: nat)
    requires i <= end <= |words| && cur.base != -1 && CurrentRun(words, cur, i) && BestUpTo(words, best, cur.base)
    requires end == i || (end == i + 1 && words[i] != 0)
    ensures BestUpTo(words, Better(best, cur), end)
  {
    forall b, l | ZeroRun(words, b, l) && b + l <= end && l >= 1
      ensures b + l <= cur.base || (cur.base <= b && b + l <= i)
    {
    }
  }

  /** The search for the run to compress. */
  method FindRun(words: seq<Word>) returns (best: Run)
    ensures IsBestRun(words, best)
  {
    best := Run(-1, 0);
    var cur := Run(-1, 0);
    var i := 0;
    while i < |words|
      invariant i <= |words| && CurrentRun(words, cur, i)
      invariant BestUpTo(words, best, if cur.base == -1 then i else cur.base)
    {
      if words[i] == 0 {
        if cur.base == -1 {
          cur := Run(i, 1);
        } else {
          cur := cur.(len := cur.len + 1);
        }
      } else {
        if cur.base != -1 {
          FinishRun(words, best, cur, i, i + 1);
          if best.base == -1 || cur.len > best.len {
            best := cur;
          }
          cur := cur.(base := -1);
        } else {
          assert forall b, l | ZeroRun(words, b, l) && b + l <= i + 1 && l >= 1 :: b + l <= i;
        }
      }
      i := i + 1;
    }
    if cur.base != -1 {
      FinishRun(words, best, cur, i, i);
      if best.base == -1 || cur.len > best.len {
        best := cur;
      }
    }
    if best.base != -1 && best.len < 2 {
      best := best.(base := -1);
    }
  }

  /** Writes a quad at `tp`, with all of `tmp` that is left as room: it fits, with
      its terminator. */
  method EmitQuad(tmp: array<char>, tp: nat, src: seq<Byte>, ghost rest: string, ghost text: string) returns (end: nat)
    requires |src| == 4 && tp <= tmp.Length && tmp[..tp] + (Quad(src) + rest) == text && |text| < tmp.Length
    modifies tmp
    ensures end == tp + |Quad(src)| <= tmp.Length && tmp[..end] + rest == text
  {
    hide Quad;
    ghost var written := tmp[..tp];
    assert |text| == tp + |Quad(src)| + |rest|;
    var r := Ntop4(src, tmp, tp, tmp.Length - tp);
    assert r == Fits;
    end := tp + |Quad(src)|;
    assert tmp[..end] == written + Quad(src);
    Assoc(written, Quad(src), rest);
  }

  /** Formats the words with `best` compressed. */
  method FormatWords(tmp: array<char>, src: seq<Byte>, words: seq<Word>, best: Run) returns (tp: nat)
    requires |src| == 16 && words == Words(src) && |Format(src, best)| < tmp.Length
    modifies tmp
    ensures tp < tmp.Length && tmp[..tp] == Format(src, best)
  {
    hide Quad, Hex, FormatFrom;
    ghost var text := Format(src, best);
    var i := 0;
    tp := 0;
    ghost var tail := text;
    while i < 8
      invariant i <= 8 && 0 <= tp <= tmp.Length
      invariant tmp[..tp] + tail == text && tail == FormatFrom(src, best, i)
    {
      FormatStep(src, best, i);
      if best.base != -1 && i >= best.base && i < best.base + best.len {
        if i == best.base {
          tp := Emit(tmp, tp, ":", FormatFrom(src, best, i + 1), text);
        } else {
          assert "" + FormatFrom(src, best, i + 1) == FormatFrom(src, best, i + 1);
        }
        i := i + 1;
        tail := FormatFrom(src, best, i);
        continue;
      }
      tail := PieceFrom(src, best, i);
      if i != 0 {
        tp := Emit(tmp, tp, ":", tail, text);
      } else {
        assert "" + tail == tail;
      }
      if i == 6 && best.base == 0 && (best.len == 6 || (best.len == 5 && words[5] == 0xffff)) {
        tail := Trailer(best);
        tp := EmitQuad(tmp, tp, src[12..], tail, text);
        break;
      }
      tail := FormatFrom(src, best, i + 1);
      tp := Emit(tmp, tp, Hex(words[i]), tail, text);
      i := i + 1;
    }
    FormatStep(src, best, 8);
    assert tail + "" == tail;
    if best.base != -1 && best.base + best.len == 8 {
      tp := Emit(tmp, tp, ":", "", text);
    }
    assert tmp[..tp] + "" == tmp[..tp];
    assert tmp[..tp] == text;
  }

  /** `inet_ntop6`: the text with the best run compressed, if it and its
      terminator fit in `size`.  The length of the text is returned with it. */
  method Ntop6(src: seq<Byte>, dst: array<char>, size: nat) returns (len: Option<nat>)
    requires |src| == 16 && size <= dst.Length
    modifies dst
    ensures exists run ::
      && IsBestRun(Words(src), run)
      && |Format(src, run)| <= 45
      && (if |Format(src, run)| + 1 > size then len == None && dst[..] == old(dst[..])
          else
            && len == Some(|Format(src, run)|)
            && dst[..] == Format(src, run) + ['\0'] + old(dst[|Format(src, run)| + 1..]))
  {
    hide Quad, Hex, Format, IsBestRun;
    var tmp := new char[TMP_SIZE];
    var words := CopyWords(src);
    var best := FindRun(words[..]);
    BestRunIsUnique(Words(src), best, best);
    TextIsShort(src, best);
    var tp := FormatWords(tmp, src, words[..], best);
    tmp[tp] := '\0';
    tp := tp + 1;
    assert tmp[..tp] == Format(src, best) + ['\0'];
    if tp > size {
      return None;
    }
    forall k | 0 <= k < tp {
      dst[k] := tmp[k];
    }
    assert dst[..tp] == tmp[..tp];
    return Some(tp - 1);
  }

  // ----- parsing -----

  /** `inet_pton4` into four bytes of `dst`, untouched unless it succeeds. */
  method Pton4(text: string, dst: array<Byte>, at: nat) returns (ok: bool)
    requires at + INADDRSZ <= dst.Length
    modifies dst
    ensures ok <==> ParseQuad(text).Some?
    ensures dst[..] == if ok then old(dst[..at]) + ParseQuad(text).value + old(dst[at + INADDRSZ..]) else old(dst[..])
  {
    var tmp := new Byte[INADDRSZ](_ => 0);
    var tp := 0;
    var saw, octets, pos := false, 0, 0;
    while pos < |text|
      invariant pos <= |text| && tp <= 3 && octets == tp + if saw then 1 else 0
      invariant ParseQuad(text) == ParseQuadFrom(text[pos..], tmp[..tp], tmp[tp], saw)
      invariant dst[..] == old(dst[..])
    {
      var ch := text[pos];
      assert text[pos..][0] == ch && text[pos..][1..] == text[pos + 1..];
      pos := pos + 1;
      if IsDecimal(ch) {
        var new_ := tmp[tp] * 10 + (ch as int - '0' as int);
        if new_ > 255 {
          return false;
        }
        tmp[tp] := new_;
        if !saw {
          octets := octets + 1;
          if octets > 4 {
            return false;
          }
          saw := true;
        }
      } else if ch == '.' && saw {
        if octets == 4 {
          return false;
        }
        assert tmp[..tp + 1] == tmp[..tp] + [tmp[tp]];
        tp := tp + 1;
        tmp[tp] := 0;
        saw := false;
      } else {
        return false;
      }
    }
    assert text[pos..] == "";
    if octets < 4 {
      return false;
    }
    assert tp == 3 && tmp[..] == tmp[..3] + [tmp[3]];
    forall k | 0 <= k < INADDRSZ {
      dst[at + k] := tmp[k];
    }
    ok := true;
  }

  /** Byte `k` after `i` bytes of the shift. */
  function Shifting(was: seq<Byte>, tp: nat, i: nat, k: nat): Byte
    requires |was| == IN6ADDRSZ && i <= tp <= IN6ADDRSZ && k < IN6ADDRSZ
  {
    if k < tp - i then was[k]
    else if k < IN6ADDRSZ - i || tp == IN6ADDRSZ then 0
    else was[k - (IN6ADDRSZ - tp)]
  }

  lemma ShiftingEnds(was: seq<Byte>, tp: nat, colonp: nat)
    requires |was| == IN6ADDRSZ && colonp <= tp <= IN6ADDRSZ
    ensures forall k | 0 <= k < IN6ADDRSZ :: Shifted(was[..tp], colonp)[k] == Shifting(was, tp, tp - colonp, k)
  {
  }

  /** The shift that opens the gap for `::`, byte by byte in place. */
  method OpenGap(tmp: array<Byte>, tp: nat, colonp: nat)
    requires tmp.Length == IN6ADDRSZ && colonp <= tp <= IN6ADDRSZ
    requires forall k | tp <= k < IN6ADDRSZ :: tmp[k] == 0
    modifies tmp
    ensures tmp[..] == Shifted(old(tmp[..tp]), colonp)
  {
    hide Shifted;
    var n := tp - colonp;
    ghost var was := tmp[..];
    var i := 1;
    while i <= n
      invariant 1 <= i <= n + 1
      invariant forall k | 0 <= k < IN6ADDRSZ :: tmp[k] == Shifting(was, tp, i - 1, k)
    {
      tmp[IN6ADDRSZ - i] := tmp[colonp + n - i];
      tmp[colonp + n - i] := 0;
      i := i + 1;
    }
    ShiftingEnds(was, tp, colonp);
    assert was[..tp] == old(tmp[..tp]);
  }

  /** Where the parser starts. */
  lemma ParseStarts(text: string)
    ensures Parse(text) ==
      if text == "" || text[0] != ':' then ScanAll(text, text, START)
      else if |text| == 1 || text[1] != ':' then None
      else ScanAll(text[1..], text[1..], START)
  {
  }

  /** One character. */
  lemma ScanStep(rest: string, tok: string, s: Scan)
    requires rest != ""
    ensures ScanFrom(rest, tok, s) ==
      if DigitValue(rest[0]).Some? then
        var val := s.val * 16 + DigitValue(rest[0]).value;
        if val > 0xffff then None else ScanFrom(rest[1..], tok, s.(val := val, saw := true))
      else if rest[0] == ':' then
        if !s.saw then
          if s.colon.Some? then None else ScanFrom(rest[1..], rest[1..], s.(colon := Some(|s.out|)))
        else if |s.out| + 2 > 16 then None
        else ScanFrom(rest[1..], rest[1..], Scan(s.out + WordBytes(s.val), s.colon, 0, false))
      else if rest[0] == '.' && |s.out| + 4 <= 16 && ParseQuad(tok).Some? then
        Some(s.(out := s.out + ParseQuad(tok).value, saw := false))
      else None
  {
  }

  lemma ScanStops(tok: string, s: Scan)
    ensures ScanFrom("", tok, s) == Some(s)
  {
  }

  /** `inet_pton6` into `dst`, untouched unless it succeeds. */
  method Pton6(text: string, dst: array<Byte>) returns (ok: bool)
    requires dst.Length == IN6ADDRSZ
    modifies dst
    ensures ok <==> Parse(text).Some?
    ensures dst[..] == if ok then Parse(text).value else old(dst[..])
  {
    hide ScanFrom, Parse, ParseQuad, Finish, WordBytes, DigitValue;
    ParseStarts(text);
    var tmp := new Byte[IN6ADDRSZ](_ => 0);
    var tp, pos := 0, 0;
    var colonp: Option<nat> := None;
    if |text| > 0 && text[0] == ':' {
      if |text| == 1 || text[1] != ':' {
        return false;
      }
      pos := 1;
    }
    var curtok, saw := pos, false;
    var val: Word := 0;
    assert tmp[..0] == [] && text[0..] == text;
    ghost var result := ScanFrom(text[pos..], text[pos..], START);
    ghost var left := text[pos..];
    ghost var quad := false;
    while pos < |text|
      invariant pos <= |text| && curtok <= |text| && 0 <= tp <= IN6ADDRSZ && (colonp.Some? ==> colonp.value <= tp)
      invariant left == text[pos..] && !quad
      invariant result == ScanFrom(left, text[curtok..], Scan(tmp[..tp], colonp, val, saw))
      invariant forall k | tp <= k < IN6ADDRSZ :: tmp[k] == 0
      invariant dst[..] == old(dst[..]) && fresh(tmp)
    {
      var ch := text[pos];
      assert left[0] == ch && left[1..] == text[pos + 1..];
      ScanStep(left, text[curtok..], Scan(tmp[..tp], colonp, val, saw));
      pos := pos + 1;
      left := text[pos..];
      if DigitValue(ch).Some? {
        var v := val * 16 + DigitValue(ch).value;
        if v > 0xffff {
          return false;
        }
        val, saw := v, true;
        continue;
      }
      if ch == ':' {
        curtok := pos;
        if !saw {
          if colonp.Some? {
            return false;
          }
          colonp := Some(tp);
          continue;
        }
        if tp + 2 > IN6ADDRSZ {
          return false;
        }
        tp := PutWord(tmp, tp, val);
        saw, val := false, 0;
        continue;
      }
      if ch == '.' && tp + INADDRSZ <= IN6ADDRSZ {
        ghost var was := tmp[..];
        var isQuad := Pton4(text[curtok..], tmp, tp);
        if isQuad {
          assert tmp[..tp + INADDRSZ] == was[..tp] + ParseQuad(text[curtok..]).value;
          assert forall k | tp + INADDRSZ <= k < IN6ADDRSZ :: tmp[k] == was[k];
          tp := tp + INADDRSZ;
          saw := false;
          quad := true;
          break;
        }
      }
      return false;
    }
    ScanStops(text[curtok..], Scan(tmp[..tp], colonp, val, saw));
    assert result == Some(Scan(tmp[..tp], colonp, val, saw));
    ok := FinishParse(tmp, tp, colonp, val, saw, dst);
  }

  /** What follows the parsing loop. */
  method FinishParse(tmp: array<Byte>, end: nat, colonp: Option<nat>, val: Word, saw: bool, dst: array<Byte>)
      returns (ok: bool)
    requires tmp.Length == IN6ADDRSZ == dst.Length && tmp != dst && end <= IN6ADDRSZ
    requires colonp.Some? ==> colonp.value <= end
    requires forall k | end <= k < IN6ADDRSZ :: tmp[k] == 0
    modifies tmp, dst
    ensures var r := Finish(Scan(old(tmp[..end]), colonp, val, saw));
      ok == r.Some? && dst[..] == if ok then r.value else old(dst[..])
  {
    var tp := end;
    if saw {
      if tp + 2 > IN6ADDRSZ {
        return false;
      }
      tp := PutWord(tmp, tp, val);
    }
    if colonp.Some? {
      OpenGap(tmp, tp, colonp.value);
      tp := IN6ADDRSZ;
    }
    if tp != IN6ADDRSZ {
      return false;
    }
    assert tmp[..tp] == tmp[..];
    forall k | 0 <= k < IN6ADDRSZ {
      dst[k] := tmp[k];
    }
    assert dst[..] == tmp[..];
    ok := true;
  }

  /** Stores a word's two bytes, high byte first, and moves past them. */
  method PutWord(tmp: array<Byte>, tp: nat, val: Word) returns (end: nat)
    requires tp + 2 <= tmp.Length
    modifies tmp
    ensures end == tp + 2 && tmp[..end] == old(tmp[..tp]) + WordBytes(val)
    ensures forall k | end <= k < tmp.Length :: tmp[k] == old(tmp[k])
  {
    tmp[tp] := val / 256;
    tmp[tp + 1] := val % 256;
    end := tp + 2;
  }

  /** Printing an address and parsing the text gives the address back. */
  method PrintThenParse(src: seq<Byte>, dst: array<Byte>) returns (ok: bool)
    requires |src| == 16 && dst.Length == IN6ADDRSZ
    modifies dst
    ensures ok && dst[..] == src
  {
    hide Format, IsBestRun, Words, Parse, Compressible;
    var buf := new char[TMP_SIZE];
    var len := Ntop6(src, buf, TMP_SIZE);
    ghost var run :| IsBestRun(Words(src), run) && len == Some(|Format(src, run)|) &&
      |Format(src, run)| < TMP_SIZE && buf[..|Format(src, run)|] == Format(src, run);
    BestRunIsUnique(Words(src), run, run);
    ParseUndoesFormat(src, run);
    ok := Pton6(buf[..len.value], dst);
  }
}
