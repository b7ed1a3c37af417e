/** What the printed text of an IPv6 address looks like, said without the loop that prints
    it: groups in hexadecimal, the best run of zeros left out, and a dotted quad at the
    end of the two forms that embed an IPv4 address. */
module InetForm {
  import opened Common
  import opened InetText
  import opened InetRoundTrip
  import opened InetGap

  // ----- numbers -----

  const DIGITS_LOWER := "0123456789abcdef"
  const DIGITS_UPPER := "0123456789ABCDEF"

  /** A digit's value is its place in the table of either case; no other character has one. */
  lemma DigitValueIs(c: char)
    ensures forall k: nat | k < 16 && (c == DIGITS_LOWER[k] || c == DIGITS_UPPER[k]) :: DigitValue(c) == Some(k)
    ensures DigitValue(c).Some? ==> exists k: nat :: k < 16 && (c == DIGITS_LOWER[k] || c == DIGITS_UPPER[k])
  {
    if DigitValue(c).Some? {
      var k := DigitValue(c).value;
      assert c == DIGITS_LOWER[k] || c == DIGITS_UPPER[k];
    }
  }

  predicate LowerHex(c: char) { '0' <= c <= '9' || 'a' <= c <= 'f' }

  /** The number in base `b` that digits spell. */
  function Spelled(s: string, b: nat): nat
    requires forall k | 0 <= k < |s| :: DigitValue(s[k]).Some?
  {
    if s == "" then 0 else Spelled(s[..|s| - 1], b) * b + DigitValue(s[|s| - 1]).value
  }

  /** Lower-case digits that spell the number, without leading zeros. */
  lemma {:induction false} HexIs(w: nat)
    ensures Hex(w) != "" && (Hex(w)[0] == '0' ==> w == 0 && |Hex(w)| == 1)
    ensures forall k | 0 <= k < |Hex(w)| :: LowerHex(Hex(w)[k]) && DigitValue(Hex(w)[k]).Some?
    ensures Spelled(Hex(w), 16) == w
  {
    if w < 16 {
      assert Hex(w)[..0] == "";
    } else {
      HexIs(w / 16);
      assert Hex(w)[..|Hex(w)| - 1] == Hex(w / 16);
    }
  }

  lemma {:induction false} DecIs(n: nat)
    ensures Dec(n) != "" && (Dec(n)[0] == '0' ==> n == 0 && |Dec(n)| == 1)
    ensures forall k | 0 <= k < |Dec(n)| :: '0' <= Dec(n)[k] <= '9' && DigitValue(Dec(n)[k]).Some?
    ensures Spelled(Dec(n), 10) == n
  {
    if n < 10 {
      assert Dec(n)[..0] == "";
    } else {
      DecIs(n / 10);
      assert Dec(n)[..|Dec(n)| - 1] == Dec(n / 10);
    }
  }

  // ----- without a quad -----

  /** The groups after the run, or all that are left when there is none. */
  lemma {:induction false} GroupsAfter(src: seq<Byte>, run: Run, i: nat)
    requires |src| == 16 && i < 8 && (run.base == -1 || run.base + run.len <= i)
    requires forall k | i <= k < 8 :: !Embedded(Words(src), run, k)
    ensures PieceFrom(src, run, i) == GroupsText(Words(src)[i..])
    decreases 8 - i
  {
    var ws := Words(src);
    FormatStep(src, run, i + 1);
    hide FormatFrom, Hex, Words;
    if i == 7 {
      assert ws[7..] == [ws[7]] && Hex(ws[7]) + "" == Hex(ws[7]);
    } else {
      GroupsAfter(src, run, i + 1);
      assert ws[i..][1..] == ws[i + 1..];
    }
  }

  /** From the run on: two colons and the groups after it. */
  lemma FromRun(src: seq<Byte>, run: Run)
    requires |src| == 16 && 0 <= run.base && 2 <= run.len && run.base + run.len <= 8
    requires forall k | 0 <= k < 8 :: !Embedded(Words(src), run, k)
    ensures FormatFrom(src, run, run.base) == "::" + GroupsText(Words(src)[run.base + run.len..])
  {
    var end := run.base + run.len;
    SkipRun(src, run, run.base + 1);
    FormatStep(src, run, run.base);
    AfterRun(src, run);
    hide *;
    JoinColons(GroupsText(Words(src)[end..]));
  }

  lemma JoinColons(rest: string)
    ensures ":" + (":" + rest) == "::" + rest
  {
    assert ":" + ":" == "::";
    Assoc(":", ":", rest);
  }

  /** The last group before the run. */
  lemma LastBeforeRun(src: seq<Byte>, run: Run)
    requires |src| == 16 && 0 < run.base < 8 && !Embedded(Words(src), run, run.base - 1)
    ensures var i := run.base - 1;
      PieceFrom(src, run, i) == GroupsText(Words(src)[i..run.base]) + FormatFrom(src, run, run.base)
  {
    var ws := Words(src);
    assert ws[run.base - 1..run.base] == [ws[run.base - 1]];
    hide FormatFrom, Hex, Words;
  }

  lemma AfterRun(src: seq<Byte>, run: Run)
    requires |src| == 16 && 0 <= run.base && 2 <= run.len && run.base + run.len <= 8
    requires forall k | 0 <= k < 8 :: !Embedded(Words(src), run, k)
    ensures FormatFrom(src, run, run.base + run.len) == ":" + GroupsText(Words(src)[run.base + run.len..])
  {
    var end, ws := run.base + run.len, Words(src);
    FormatStep(src, run, end);
    hide FormatFrom, Words, GroupsText;
    if end == 8 {
      NoGroups();
      assert ws[8..] == [] && ":" + "" == ":";
    } else {
      GroupsAfter(src, run, end);
    }
  }

  lemma GroupsCons(ws: seq<Word>, i: nat, j: nat)
    requires i + 1 < j <= |ws|
    ensures GroupsText(ws[i..j]) == Hex(ws[i]) + (":" + GroupsText(ws[i + 1..j]))
  {
    assert ws[i..j][1..] == ws[i + 1..j];
  }

  lemma PieceIs(src: seq<Byte>, run: Run, i: nat)
    requires |src| == 16 && i < 7 && !InRun(run, i + 1) && !Embedded(Words(src), run, i)
    ensures PieceFrom(src, run, i) == Hex(Words(src)[i]) + (":" + PieceFrom(src, run, i + 1))
  {
    FormatStep(src, run, i + 1);
  }

  lemma {:induction false} FromGroup(src: seq<Byte>, run: Run, i: nat)
    requires |src| == 16 && i < run.base && 2 <= run.len && run.base + run.len <= 8
    requires forall k | 0 <= k < 8 :: !Embedded(Words(src), run, k)
    ensures PieceFrom(src, run, i) ==
      GroupsText(Words(src)[i..run.base]) + ("::" + GroupsText(Words(src)[run.base + run.len..]))
    decreases 8 - i
  {
    var ws, base := Words(src), run.base;
    var hex, rest := Hex(ws[i]), "::" + GroupsText(ws[base + run.len..]);
    assert i + 1 < base ==> !InRun(run, i + 1);
    hide *;
    if i + 1 == base {
      LastBeforeRun(src, run);
      FromRun(src, run);
    } else {
      FromGroup(src, run, i + 1);
      PieceIs(src, run, i);
      GroupsCons(ws, i, base);
      var more := GroupsText(ws[i + 1..base]);
      Assoc(":", more, rest);
      Assoc(hex, ":" + more, rest);
    }
  }

  // ----- the text -----

  /** The address holds an IPv4 address: ::ffff:a.b.c.d, or ::a.b.c.d other than the
      addresses whose first seven groups are zero. */
  predicate HoldsQuad(ws: seq<Word>)
    requires |ws| == 8
  {
    (forall k | 0 <= k < 5 :: ws[k] == 0) && (ws[5] == 0xffff || (ws[5] == 0 && ws[6] != 0))
  }

  /** The text of every address. */
  lemma TextIs(src: seq<Byte>, run: Run)
    requires |src| == 16 && IsBestRun(Words(src), run)
    ensures var ws := Words(src);
      Format(src, run) ==
        if HoldsQuad(ws) then (if ws[5] == 0xffff then "::ffff:" else "::") + Quad(src[12..])
        else if run.base == -1 then GroupsText(ws)
        else GroupsText(ws[..run.base]) + ("::" + GroupsText(ws[run.base + run.len..]))
  {
    var ws := Words(src);
    QuadExactlyWhen(ws, run);
    if HoldsQuad(ws) {
      QuadText(src, run);
    } else {
      PlainText(src, run);
    }
  }

  lemma QuadExactlyWhen(ws: seq<Word>, run: Run)
    requires |ws| == 8 && IsBestRun(ws, run)
    ensures HoldsQuad(ws) <==> Embedded(ws, run, 6)
    ensures HoldsQuad(ws) ==> run == Run(0, if ws[5] == 0xffff then 5 else 6)
    ensures run.base != -1 ==> 0 <= run.base && 2 <= run.len && run.base + run.len <= 8
  {
    if forall k | 0 <= k < 5 :: ws[k] == 0 {
      assert ZeroRun(ws, 0, 5);
      assert ws[5] == 0 ==> ZeroRun(ws, 0, 6);
      assert ws[5] == 0 == ws[6] ==> ZeroRun(ws, 0, 7);
    }
  }

  lemma PlainText(src: seq<Byte>, run: Run)
    requires |src| == 16 && !Embedded(Words(src), run, 6)
    requires run.base != -1 ==> 0 <= run.base && 2 <= run.len && run.base + run.len <= 8
    ensures var ws := Words(src);
      Format(src, run) ==
        if run.base == -1 then GroupsText(ws)
        else GroupsText(ws[..run.base]) + ("::" + GroupsText(ws[run.base + run.len..]))
  {
    var ws := Words(src);
    assert forall k | 0 <= k < 8 :: !Embedded(ws, run, k);
    FormatStep(src, run, 0);
    hide FormatFrom, Words, GroupsText;
    if run.base == -1 {
      GroupsAfter(src, run, 0);
      assert ws[0..] == ws && "" + GroupsText(ws) == GroupsText(ws);
    } else if run.base == 0 {
      FromRun(src, run);
      NoGroups();
      assert ws[..0] == [];
      var rest := "::" + GroupsText(ws[run.len..]);
      assert "" + rest == rest;
    } else {
      FromGroup(src, run, 0);
      assert ws[0..run.base] == ws[..run.base];
    }
  }

  lemma QuadText(src: seq<Byte>, run: Run)
    requires |src| == 16 && HoldsQuad(Words(src)) && run == Run(0, if Words(src)[5] == 0xffff then 5 else 6)
    ensures Format(src, run) == (if Words(src)[5] == 0xffff then "::ffff:" else "::") + Quad(src[12..])
  {
    var q, five := Quad(src[12..]), Words(src)[5];
    QuadPiece(src, run);
    QuadSteps(src, run);
    hide *;
    if five == 0xffff {
      HexFfff();
      JoinColons("ffff" + (":" + q));
      JoinPrefix(q);
    } else {
      JoinColons(q);
    }
  }

  lemma JoinPrefix(q: string)
    ensures "::" + ("ffff" + (":" + q)) == "::ffff:" + q
  {
    Assoc("ffff", ":", q);
    Assoc("::", "ffff" + ":", q);
    assert "::" + ("ffff" + ":") == "::ffff:";
  }

  lemma QuadPiece(src: seq<Byte>, run: Run)
    requires |src| == 16 && Embedded(Words(src), run, 6) && !InRun(run, 6)
    ensures FormatFrom(src, run, 6) == ":" + Quad(src[12..])
  {
    FormatStep(src, run, 6);
    hide FormatFrom, Quad, Words;
    assert Quad(src[12..]) + Trailer(run) == Quad(src[12..]);
  }

  lemma QuadSteps(src: seq<Byte>, run: Run)
    requires |src| == 16 && run == Run(0, if Words(src)[5] == 0xffff then 5 else 6)
    ensures Format(src, run) ==
      ":" + if Words(src)[5] == 0xffff then ":" + (Hex(0xffff) + FormatFrom(src, run, 6)) else FormatFrom(src, run, 6)
  {
    SkipRun(src, run, 1);
    FormatStep(src, run, 0);
    hide Words, Hex;
    if run.len == 5 {
      FormatStep(src, run, 5);
    }
    hide FormatFrom;
  }

  lemma HexFfff()
    ensures Hex(0xffff) == "ffff"
  {
    assert Hex(0xf) == "f" && Hex(0xff) == "ff" && Hex(0xfff) == "fff";
  }

  // ----- dots and colons -----

  lemma {:induction false} GroupsHaveNoDot(ws: seq<Word>)
    ensures '.' !in GroupsText(ws)
  {
    if ws == [] {
    } else {
      HexIs(ws[0]);
      GroupsHaveNoDot(ws[1..]);
    }
  }

  /** A dot is printed exactly for the addresses that hold an IPv4 address. */
  lemma DotExactlyForQuad(src: seq<Byte>, run: Run)
    requires |src| == 16 && IsBestRun(Words(src), run)
    ensures '.' in Format(src, run) <==> HoldsQuad(Words(src))
  {
    TextIs(src, run);
    var ws := Words(src);
    QuadExactlyWhen(ws, run);
    hide *;
    if HoldsQuad(ws) {
      QuadHasDot(if ws[5] == 0xffff then "::ffff:" else "::", src[12..]);
    } else if run.base == -1 {
      GroupsHaveNoDot(ws);
    } else {
      GroupsHaveNoDot(ws[..run.base]);
      GroupsHaveNoDot(ws[run.base + run.len..]);
      NoDotBetween(GroupsText(ws[..run.base]), GroupsText(ws[run.base + run.len..]));
    }
  }

  lemma NoDotBetween(a: string, b: string)
    requires '.' !in a && '.' !in b
    ensures '.' !in a + ("::" + b)
  {
  }

  lemma QuadHasDot(prefix: string, q: seq<Byte>)
    requires |q| == 4
    ensures '.' in prefix + Quad(q)
  {
    assert (prefix + Quad(q))[|prefix| + |Dec(q[0])|] == '.';
  }
}
