/** Parsing undoes printing: every address comes back from its text, whichever
    run was compressed and whether or not the text ends in a dotted quad. */
module InetRoundTrip {
  import opened Common
  import opened InetText

  // ----- one character at a time -----

  lemma ScanDigit(d: nat, rest: string, tok: string, s: Scan)
    requires d < 16 && s.val * 16 + d <= 0xffff
    ensures ScanFrom([Digit(d)] + rest, tok, s) == ScanFrom(rest, tok, s.(val := s.val * 16 + d, saw := true))
  {
    assert ([Digit(d)] + rest)[1..] == rest;
    assert DigitValue(Digit(d)) == Some(d);
  }

  /** A colon stores the word before it. */
  lemma ScanColon(rest: string, tok: string, s: Scan)
    requires s.saw && |s.out| + 2 <= 16
    ensures ScanFrom(":" + rest, tok, s) == ScanFrom(rest, rest, Scan(s.out + WordBytes(s.val), s.colon, 0, false))
  {
    assert (":" + rest)[1..] == rest;
  }

  /** A colon after a colon marks the gap. */
  lemma ScanGap(rest: string, tok: string, s: Scan)
    requires !s.saw && s.colon.None?
    ensures ScanFrom(":" + rest, tok, s) == ScanFrom(rest, rest, s.(colon := Some(|s.out|)))
  {
    assert (":" + rest)[1..] == rest;
  }

  // ----- numbers -----

  /** Hexadecimal digits are read back as the number they print. */
  lemma {:induction false} ScanHex(w: Word, rest: string, tok: string, s: Scan)
    requires s.val == 0
    ensures ScanFrom(Hex(w) + rest, tok, s) == ScanFrom(rest, tok, s.(val := w, saw := true))
    decreases w
  {
    hide ScanFrom, Digit;
    if w < 16 {
      ScanDigit(w, rest, tok, s);
    } else {
      var last := [Digit(w % 16)];
      Assoc(Hex(w / 16), last, rest);
      ScanHex(w / 16, last + rest, tok, s);
      ScanDigit(w % 16, rest, tok, s.(val := w / 16, saw := true));
    }
  }

  lemma ParseDigit(d: nat, rest: string, done: seq<Byte>, cur: Byte, saw: bool)
    requires d < 10 && cur * 10 + d <= 255 && |done| <= 3
    ensures ParseQuadFrom([Digit(d)] + rest, done, cur, saw) == ParseQuadFrom(rest, done, cur * 10 + d, true)
  {
    assert ([Digit(d)] + rest)[1..] == rest;
  }

  lemma ParseDot(rest: string, done: seq<Byte>, cur: Byte)
    requires |done| <= 2
    ensures ParseQuadFrom("." + rest, done, cur, true) == ParseQuadFrom(rest, done + [cur], 0, false)
  {
    assert ("." + rest)[1..] == rest;
  }

  lemma {:induction false} ParseDec(n: Byte, rest: string, done: seq<Byte>)
    requires |done| <= 3
    ensures ParseQuadFrom(Dec(n) + rest, done, 0, false) == ParseQuadFrom(rest, done, n, true)
    decreases n
  {
    hide ParseQuadFrom, Digit;
    if n < 10 {
      ParseDigit(n, rest, done, 0, false);
    } else {
      var last := [Digit(n % 10)];
      Assoc(Dec(n / 10), last, rest);
      ParseDec(n / 10, last + rest, done);
      ParseDigit(n % 10, rest, done, n / 10, true);
    }
  }

  /** Every IPv4 address is read back from its dotted quad. */
  lemma QuadRoundTrip(q: seq<Byte>)
    requires |q| == 4
    ensures ParseQuad(Quad(q)) == Some(q)
  {
    hide Dec;
    var r2 := Dec(q[2]) + ("." + Dec(q[3]));
    var r1 := Dec(q[1]) + ("." + r2);
    QuadParts(q);
    ParseDec(q[0], "." + r1, []);
    ParseDot(r1, [], q[0]);
    ParseDec(q[1], "." + r2, [q[0]]);
    ParseDot(r2, [q[0]], q[1]);
    ParseDec(q[2], "." + Dec(q[3]), [q[0], q[1]]);
    ParseDot(Dec(q[3]), [q[0], q[1]], q[2]);
    assert [] + [q[0]] == [q[0]] && [q[0]] + [q[1]] == [q[0], q[1]] && [q[0], q[1]] + [q[2]] == [q[0], q[1], q[2]];
    assert [q[0], q[1], q[2]] + [q[3]] == q;
    assert Dec(q[3]) + "" == Dec(q[3]);
    ParseDec(q[3], "", [q[0], q[1], q[2]]);
  }

  lemma QuadParts(q: seq<Byte>)
    requires |q| == 4
    ensures Quad(q) == Dec(q[0]) + ("." + (Dec(q[1]) + ("." + (Dec(q[2]) + ("." + Dec(q[3]))))))
  {
    hide Dec;
  }

  /** Scanned as hexadecimal, the first octet of a dotted quad does not overflow. */
  lemma ScanDec(n: Byte, rest: string, tok: string, s: Scan) returns (val: Word)
    requires s.val == 0
    ensures ScanFrom(Dec(n) + rest, tok, s) == ScanFrom(rest, tok, s.(val := val, saw := true))
  {
    val := ScanDecBy(n, 3, rest, tok, s);
  }

  lemma {:induction false} ScanDecBy(n: nat, digits: nat, rest: string, tok: string, s: Scan) returns (val: Word)
    requires s.val == 0 && 1 <= digits <= 3
    requires n < if digits == 1 then 10 else if digits == 2 then 100 else 1000
    ensures val < if digits == 1 then 16 else if digits == 2 then 256 else 4096
    ensures ScanFrom(Dec(n) + rest, tok, s) == ScanFrom(rest, tok, s.(val := val, saw := true))
  {
    hide ScanFrom, Digit;
    if n < 10 {
      ScanDigit(n, rest, tok, s);
      val := n;
    } else {
      var last := [Digit(n % 10)];
      Assoc(Dec(n / 10), last, rest);
      var v := ScanDecBy(n / 10, digits - 1, last + rest, tok, s);
      ScanDigit(n % 10, rest, tok, s.(val := v, saw := true));
      val := v * 16 + n % 10;
    }
  }

  /** A dotted quad is taken whole when 4 bytes are left for it. */
  lemma ScanQuad(q: seq<Byte>, s: Scan)
    requires |q| == 4 && s.val == 0 && |s.out| + 4 <= 16
    ensures ScanFrom(Quad(q), Quad(q), s).Some?
    ensures var r := ScanFrom(Quad(q), Quad(q), s).value;
      r.out == s.out + q && r.colon == s.colon && !r.saw
  {
    hide Dec;
    var rest := "." + (Dec(q[1]) + ("." + (Dec(q[2]) + ("." + Dec(q[3])))));
    QuadParts(q);
    var val := ScanDec(q[0], rest, Quad(q), s);
    QuadRoundTrip(q);
  }

  // ----- words and bytes -----

  function Bytes(words: seq<Word>): (b: seq<Byte>)
    ensures |b| == 2 * |words|
  {
    if words == [] then [] else WordBytes(words[0]) + Bytes(words[1..])
  }

  lemma {:induction false} BytesAppend(a: seq<Word>, b: seq<Word>)
    ensures Bytes(a + b) == Bytes(a) + Bytes(b)
  {
    if a == [] {
      assert a + b == b;
    } else {
      assert (a + b)[1..] == a[1..] + b;
      BytesAppend(a[1..], b);
    }
  }

  lemma {:induction false} BytesAt(words: seq<Word>, k: nat)
    requires k < |words|
    ensures Bytes(words)[2 * k] == words[k] / 256 && Bytes(words)[2 * k + 1] == words[k] % 256
  {
    if k == 0 {
    } else {
      BytesAt(words[1..], k - 1);
    }
  }

  lemma BytesOfWords(src: seq<Byte>)
    requires |src| == 16
    ensures Bytes(Words(src)) == src
  {
    var words := Words(src);
    forall k | 0 <= k < 8 ensures Bytes(words)[2 * k] == src[2 * k] && Bytes(words)[2 * k + 1] == src[2 * k + 1] {
      BytesAt(words, k);
    }
    forall j | 0 <= j < 16 ensures Bytes(words)[j] == src[j] {
      assert j == 2 * (j / 2) || j == 2 * (j / 2) + 1;
    }
  }

  lemma {:induction false} BytesOfZeros(words: seq<Word>)
    requires forall k | 0 <= k < |words| :: words[k] == 0
    ensures Bytes(words) == Zeros(2 * |words|)
  {
    if words == [] {
    } else {
      BytesOfZeros(words[1..]);
    }
  }

  // ----- the printed text, piece by piece -----

  /** A run the printer may compress: at least two zero words. */
  ghost predicate Compressible(words: seq<Word>, run: Run) {
    run.base == -1 || (run.len >= 2 && ZeroRun(words, run.base, run.len))
  }

  /** Just after word `i - 1` has been read: its text is scanned, and what is
      before it is stored. */
  function After(out: seq<Byte>, colon: Option<nat>, w: Word): Scan { Scan(out, colon, w, true) }

  /** From word `i` on there is no run left: the rest of the text supplies the
      rest of the words. */
  lemma {:induction false} ScanTail(src: seq<Byte>, run: Run, i: nat, tok: string, out: seq<Byte>, colon: Option<nat>)
    requires |src| == 16 && 0 < i <= 8 && (run.base == -1 || run.base + run.len < i)
    requires |out| + 2 * (9 - i) <= 16 && (colon.Some? ==> colon.value <= |out|)
    ensures ScanAll(FormatFrom(src, run, i), tok, After(out, colon, Words(src)[i - 1])) ==
            Finish(Scan(out + Bytes(Words(src)[i - 1..]), colon, 0, false))
    decreases 8 - i
  {
    var words := Words(src);
    var stored := Scan(out + WordBytes(words[i - 1]), colon, 0, false);
    assert words[i - 1..] == [words[i - 1]] + words[i..];
    assert out + Bytes(words[i - 1..]) == stored.out + Bytes(words[i..]);
    if i == 8 {
      assert stored.out + Bytes(words[8..]) == stored.out;
    } else {
      ScanColon(PieceFrom(src, run, i), tok, After(out, colon, words[i - 1]));
      ScanPiece(src, run, i, stored);
    }
  }

  /** The text of word `i`, or of the quad that ends the address, and the rest. */
  lemma {:induction false} ScanPiece(src: seq<Byte>, run: Run, i: nat, s: Scan)
    requires |src| == 16 && i < 8 && (run.base == -1 || run.base + run.len <= i)
    requires |s.out| + 2 * (8 - i) <= 16 && s.val == 0 && !s.saw && (s.colon.Some? ==> s.colon.value <= |s.out|)
    ensures var rest := PieceFrom(src, run, i);
      ScanAll(rest, rest, s) == Finish(Scan(s.out + Bytes(Words(src)[i..]), s.colon, 0, false))
    decreases 8 - i, 1
  {
    var words, rest := Words(src), PieceFrom(src, run, i);
    if Embedded(words, run, i) {
      assert rest == Quad(src[12..]);
      ScanQuad(src[12..], s);
      LastBytes(src);
    } else {
      ScanHex(words[i], FormatFrom(src, run, i + 1), rest, s);
      ScanTail(src, run, i + 1, rest, s.out, s.colon);
    }
  }

  lemma LastBytes(src: seq<Byte>)
    requires |src| == 16
    ensures Bytes(Words(src)[6..]) == src[12..]
  {
    var words := Words(src);
    assert words[6..] == [words[6], words[7]];
    assert Bytes([words[7]]) == WordBytes(words[7]) + Bytes([]);
    assert [words[6], words[7]][1..] == [words[7]];
  }

  lemma {:induction false} SkipRun(src: seq<Byte>, run: Run, i: nat)
    requires |src| == 16 && run.base != -1 && 0 <= run.base < i <= run.base + run.len <= 8
    ensures FormatFrom(src, run, i) == FormatFrom(src, run, run.base + run.len)
    decreases 8 - i
  {
    if i < run.base + run.len {
      SkipRun(src, run, i + 1);
    }
  }

  /** The second colon of `::` and everything after it. */
  lemma ScanAfterRun(src: seq<Byte>, run: Run, tok: string, out: seq<Byte>)
    requires |src| == 16 && run.base != -1 && run.len >= 2 && ZeroRun(Words(src), run.base, run.len)
    requires |out| == 2 * run.base
    ensures var end := run.base + run.len;
      var rest := FormatFrom(src, run, end);
      && rest != "" && rest[0] == ':'
      && ScanAll(rest, tok, Scan(out, None, 0, false)) ==
         Finish(Scan(out + Bytes(Words(src)[end..]), Some(|out|), 0, false))
  {
    var end := run.base + run.len;
    var s := Scan(out, None, 0, false);
    if end == 8 {
      ScanGap("", tok, s);
      assert ":" + "" == ":";
      assert Words(src)[8..] == [] && out + [] == out;
    } else {
      ScanGap(PieceFrom(src, run, end), tok, s);
      ScanPiece(src, run, end, s.(colon := Some(|out|)));
    }
  }

  /** All words but the run's, and where the run was. */
  function Gapped(src: seq<Byte>, run: Run): Scan
    requires |src| == 16 && run.base != -1 && ZeroRun(Words(src), run.base, run.len)
  {
    Scan(Bytes(Words(src)[..run.base]) + Bytes(Words(src)[run.base + run.len..]), Some(2 * run.base), 0, false)
  }

  lemma StoreWord(words: seq<Word>, i: nat)
    requires 0 < i <= |words|
    ensures Bytes(words[..i - 1]) + WordBytes(words[i - 1]) == Bytes(words[..i])
  {
    assert words[..i] == words[..i - 1] + [words[i - 1]];
    BytesAppend(words[..i - 1], [words[i - 1]]);
    assert Bytes([words[i - 1]]) == WordBytes(words[i - 1]) + Bytes([]);
  }

  lemma FormatStep(src: seq<Byte>, run: Run, i: nat)
    requires |src| == 16
    ensures FormatFrom(src, run, 8) == Trailer(run)
    ensures i < 8 && InRun(run, i) ==>
      FormatFrom(src, run, i) == (if i == run.base then ":" else "") + FormatFrom(src, run, i + 1)
    ensures i < 8 && !InRun(run, i) ==>
      FormatFrom(src, run, i) == (if i != 0 then ":" else "") + PieceFrom(src, run, i)
  {
  }

  /** Words still to be printed before the run. */
  lemma {:induction false} ScanBeforeRun(src: seq<Byte>, run: Run, i: nat, tok: string)
    requires |src| == 16 && run.base != -1 && run.len >= 2 && ZeroRun(Words(src), run.base, run.len)
    requires 0 < i <= run.base
    ensures ScanAll(FormatFrom(src, run, i), tok, After(Bytes(Words(src)[..i - 1]), None, Words(src)[i - 1])) ==
            Finish(Gapped(src, run))
    decreases 8 - i
  {
    hide ScanFrom, Finish, FormatFrom, Hex, WordBytes;
    FormatStep(src, run, i);
    var words := Words(src);
    var now := After(Bytes(words[..i - 1]), None, words[i - 1]);
    var stored := Scan(Bytes(words[..i]), None, 0, false);
    StoreWord(words, i);
    if i == run.base {
      var rest := FormatFrom(src, run, i + 1);
      ScanColon(rest, tok, now);
      SkipRun(src, run, i + 1);
      ScanAfterRun(src, run, rest, stored.out);
    } else {
      var rest := PieceFrom(src, run, i);
      ScanColon(rest, tok, now);
      ScanHex(words[i], FormatFrom(src, run, i + 1), rest, stored);
      ScanBeforeRun(src, run, i + 1, rest);
    }
  }

  /** Opening the gap puts the zero words back. */
  lemma GapIsRun(src: seq<Byte>, run: Run)
    requires |src| == 16 && run.base != -1 && run.len >= 2 && ZeroRun(Words(src), run.base, run.len)
    ensures Finish(Gapped(src, run)) == Some(src)
  {
    hide Bytes, Words;
    var words, end := Words(src), run.base + run.len;
    assert words == words[..run.base] + (words[run.base..end] + words[end..]);
    BytesAppend(words[..run.base], words[run.base..end] + words[end..]);
    BytesAppend(words[run.base..end], words[end..]);
    BytesOfZeros(words[run.base..end]);
    BytesOfWords(src);
    var a, b := Bytes(words[..run.base]), Bytes(words[end..]);
    assert (a + b)[..2 * run.base] == a && (a + b)[2 * run.base..] == b;
    assert Shifted(a + b, 2 * run.base) == a + Zeros(2 * run.len) + b;
    assert a + Zeros(2 * run.len) + b == a + (Zeros(2 * run.len) + b);
  }

  /** A `::` in an address that already has all its bytes is without effect exactly
      when only zeros follow it; otherwise what follows is lost. */
  lemma GapInFullAddress(out: seq<Byte>, colon: nat)
    requires |out| == 16 && colon <= 16
    ensures Finish(Scan(out, Some(colon), 0, false)) == Some(out) <==> forall k | colon <= k < 16 :: out[k] == 0
  {
    var r := Shifted(out, colon);
    assert forall k | 0 <= k < 16 :: r[k] == if k < colon then out[k] else 0;
    if forall k | colon <= k < 16 :: out[k] == 0 {
      assert r == out;
    } else {
      var k :| colon <= k < 16 && out[k] != 0;
      assert r[k] != out[k];
    }
  }

  lemma HexStart(w: nat)
    ensures Hex(w) != "" && DigitValue(Hex(w)[0]).Some? && Hex(w)[0] != ':'
  {
  }

  lemma RoundTripLeadingRun(src: seq<Byte>, run: Run)
    requires |src| == 16 && run.base == 0 && Compressible(Words(src), run)
    ensures Parse(Format(src, run)) == Some(src)
  {
    assert run.len >= 2 && ZeroRun(Words(src), run.base, run.len);
    hide *;
    var rest := FormatFrom(src, run, run.len);
    ScanAfterRun(src, run, rest, []);
    TwoColons(src, run);
    ParseTwoColons(rest);
    GappedAtStart(src, run);
    GapIsRun(src, run);
  }

  lemma TwoColons(src: seq<Byte>, run: Run)
    requires |src| == 16 && run.base == 0 && 2 <= run.len <= 8
    ensures Format(src, run) == ":" + FormatFrom(src, run, run.len)
  {
    SkipRun(src, run, 1);
  }

  lemma ParseTwoColons(rest: string)
    requires rest != "" && rest[0] == ':'
    ensures Parse(":" + rest) == ScanAll(rest, rest, Scan([], None, 0, false))
  {
    hide ScanFrom, Finish;
    assert (":" + rest)[1..] == rest;
  }

  lemma GappedAtStart(src: seq<Byte>, run: Run)
    requires |src| == 16 && run.base == 0 && ZeroRun(Words(src), run.base, run.len)
    ensures Gapped(src, run) == Scan([] + Bytes(Words(src)[run.len..]), Some(0), 0, false)
  {
    assert Words(src)[..0] == [];
  }

  lemma RoundTripLaterRun(src: seq<Byte>, run: Run)
    requires |src| == 16 && run.base > 0 && Compressible(Words(src), run)
    ensures ScanAll(Format(src, run), Format(src, run), START) == Some(src)
  {
    var words, text := Words(src), Format(src, run);
    ScanHex(words[0], FormatFrom(src, run, 1), text, START);
    assert Bytes(words[..0]) == [] && "" + PieceFrom(src, run, 0) == PieceFrom(src, run, 0);
    ScanBeforeRun(src, run, 1, text);
    GapIsRun(src, run);
  }

  lemma RoundTripNoRun(src: seq<Byte>, run: Run)
    requires |src| == 16 && run.base == -1
    ensures ScanAll(Format(src, run), Format(src, run), START) == Some(src)
  {
    var words, text := Words(src), Format(src, run);
    FormatStep(src, run, 0);
    hide ScanFrom, FormatFrom, PieceFrom, Bytes;
    assert "" + PieceFrom(src, run, 0) == PieceFrom(src, run, 0);
    ScanPiece(src, run, 0, START);
    assert words[0..] == words && [] + Bytes(words) == Bytes(words);
    BytesOfWords(src);
  }

  /** The round trip, for every address and any compressible run. */
  lemma ParseUndoesFormat(src: seq<Byte>, run: Run)
    requires |src| == 16 && Compressible(Words(src), run)
    ensures Parse(Format(src, run)) == Some(src)
  {
    if run.base == 0 {
      RoundTripLeadingRun(src, run);
    } else {
      HexStart(Words(src)[0]);
      assert Format(src, run) == Hex(Words(src)[0]) + FormatFrom(src, run, 1);
      if run.base == -1 {
        RoundTripNoRun(src, run);
      } else {
        RoundTripLaterRun(src, run);
      }
    }
  }

  // ----- length -----

  lemma HexLength(w: Word)
    ensures |Hex(w)| <= 4
  {
    assert |Hex(w / 16)| <= 3 by {
      assert |Hex(w / 16 / 16)| <= 2;
    }
  }

  lemma DecLength(n: Byte)
    ensures |Dec(n)| <= 3
  {
    assert |Dec(n / 10)| <= 2;
  }

  lemma {:induction false} FormatLength(src: seq<Byte>, run: Run, i: nat)
    requires |src| == 16 && i <= 8 && Compressible(Words(src), run)
    ensures |FormatFrom(src, run, i)| <= 5 * (8 - i) + if i == 0 then 5 else 6
    decreases 8 - i
  {
    hide Dec, Hex;
    if i < 8 {
      if Embedded(Words(src), run, i) {
        var q := src[12..];
        DecLength(q[0]);
        DecLength(q[1]);
        DecLength(q[2]);
        DecLength(q[3]);
      } else {
        HexLength(Words(src)[i]);
        FormatLength(src, run, i + 1);
      }
    }
  }

  /** The text always fits the printer's buffer. */
  lemma TextIsShort(src: seq<Byte>, run: Run)
    requires |src| == 16 && Compressible(Words(src), run)
    ensures |Format(src, run)| <= 45
  {
    FormatLength(src, run, 0);
  }

  /** There is at most one leftmost longest run, so there is one text for each
      address; and it is a run the parser can restore. */
  lemma BestRunIsUnique(words: seq<Word>, a: Run, b: Run)
    requires IsBestRun(words, a) && IsBestRun(words, b)
    ensures a.base == b.base && (a.base != -1 ==> a == b)
    ensures Compressible(words, a)
  {
  }
}
