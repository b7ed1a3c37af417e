/** A "::" in an address that spells out all eight groups: what the parser makes of
    the text, and when that is the address spelled. */
module InetGap {
  import opened Common
  import opened InetText
  import opened InetRoundTrip

  /** Groups in hexadecimal with colons between. */
  function GroupsText(ws: seq<Word>): string {
    if ws == [] then "" else if |ws| == 1 then Hex(ws[0]) else Hex(ws[0]) + (":" + GroupsText(ws[1..]))
  }

  /** All eight groups of an address, with "::" before group `i`: instead of the
      colon there, in front of all or behind all. */
  function WithGap(src: seq<Byte>, i: nat): string
    requires |src| == 16 && i <= 8
  {
    GroupsText(Words(src)[..i]) + ("::" + GroupsText(Words(src)[i..]))
  }

  /** Groups are read one by one; the last one is not stored yet. */
  lemma {:induction false} ScanGroups(ws: seq<Word>, rest: string, tok: string, s: Scan) returns (tok': string)
    requires ws != [] && |s.out| + 2 * |ws| <= 16 && s.val == 0 && !s.saw
    ensures ScanFrom(GroupsText(ws) + rest, tok, s) ==
            ScanFrom(rest, tok', After(s.out + Bytes(ws[..|ws| - 1]), s.colon, ws[|ws| - 1]))
  {
    hide ScanFrom, Hex;
    if |ws| == 1 {
      ScanHex(ws[0], rest, tok, s);
      assert s.out + Bytes(ws[..0]) == s.out;
      tok' := tok;
    } else {
      var more := GroupsText(ws[1..]) + rest;
      var stored := Scan(s.out + WordBytes(ws[0]), s.colon, 0, false);
      Assoc(Hex(ws[0]), ":" + GroupsText(ws[1..]), rest);
      Assoc(":", GroupsText(ws[1..]), rest);
      ScanHex(ws[0], ":" + more, tok, s);
      ScanColon(more, tok, s.(val := ws[0], saw := true));
      tok' := ScanGroups(ws[1..], rest, more, stored);
      assert ws[1..][..|ws| - 2] == ws[..|ws| - 1][1..];
      assert Bytes(ws[..|ws| - 1]) == WordBytes(ws[0]) + Bytes(ws[1..][..|ws| - 2]);
      assert stored.out + Bytes(ws[1..][..|ws| - 2]) == s.out + Bytes(ws[..|ws| - 1]);
    }
  }

  lemma ScanEnd(tok: string, s: Scan)
    ensures ScanFrom("", tok, s) == Some(s)
  {
  }

  lemma NoGroups()
    ensures GroupsText([]) == "" && Bytes([]) == []
  {
  }

  /** The groups that end the text are stored. */
  lemma ScanLastGroups(ws: seq<Word>, s: Scan)
    requires |s.out| + 2 * |ws| <= 16 && s.val == 0 && !s.saw && ScanOk(s)
    ensures var text := GroupsText(ws);
      ScanAll(text, text, s) == Finish(Scan(s.out + Bytes(ws), s.colon, 0, false))
  {
    hide ScanFrom, GroupsText, Bytes, Finish, WordBytes;
    var text := GroupsText(ws);
    if ws == [] {
      NoGroups();
      ScanEnd(text, s);
      assert s.out + [] == s.out;
    } else {
      var n := |ws| - 1;
      assert text + "" == text;
      var tok' := ScanGroups(ws, "", text, s);
      ScanEnd(tok', After(s.out + Bytes(ws[..n]), s.colon, ws[n]));
      FinishStores(s.out + Bytes(ws[..n]), s.colon, ws[n]);
      AllStored(s.out, ws);
    }
  }

  lemma AllStored(out: seq<Byte>, ws: seq<Word>)
    requires ws != []
    ensures out + Bytes(ws[..|ws| - 1]) + WordBytes(ws[|ws| - 1]) == out + Bytes(ws)
  {
    hide *;
    var a, b := Bytes(ws[..|ws| - 1]), WordBytes(ws[|ws| - 1]);
    assert a + b == Bytes(ws) by {
      StoreWord(ws, |ws|);
      Whole(ws);
    }
    Assoc(out, a, b);
  }

  lemma Whole(ws: seq<Word>)
    ensures ws[..|ws|] == ws
  {
  }

  lemma FinishStores(out: seq<Byte>, colon: Option<nat>, w: Word)
    requires |out| + 2 <= 16 && (colon.Some? ==> colon.value <= |out|)
    ensures Finish(After(out, colon, w)) == Finish(Scan(out + WordBytes(w), colon, 0, false))
  {
  }

  /** From the second colon of "::". */
  lemma ScanFromGap(ws: seq<Word>, tok: string, out: seq<Byte>)
    requires |out| + 2 * |ws| == 16
    ensures ScanAll(":" + GroupsText(ws), tok, Scan(out, None, 0, false)) ==
            Some(Shifted(out + Bytes(ws), |out|))
  {
    ScanGap(GroupsText(ws), tok, Scan(out, None, 0, false));
    ScanLastGroups(ws, Scan(out, Some(|out|), 0, false));
  }

  lemma BytesOfSplit(src: seq<Byte>, i: nat)
    requires |src| == 16 && i <= 8
    ensures Bytes(Words(src)[..i]) == src[..2 * i] && Bytes(Words(src)[..i]) + Bytes(Words(src)[i..]) == src
  {
    var words := Words(src);
    BytesAppend(words[..i], words[i..]);
    assert words[..i] + words[i..] == words;
    BytesOfWords(src);
    assert src[..2 * i] == (Bytes(words[..i]) + Bytes(words[i..]))[..2 * i];
  }

  /** With "::" before group `i` the parser keeps the groups before it and takes the
      others for zeros, though the text gives them. */
  lemma KeepsGroupsBeforeGap(src: seq<Byte>, i: nat)
    requires |src| == 16 && i <= 8
    ensures Parse(WithGap(src, i)) == Some(src[..2 * i] + Zeros(16 - 2 * i))
  {
    hide ScanFrom, Bytes, GroupsText;
    var before, after := Words(src)[..i], Words(src)[i..];
    BytesOfSplit(src, i);
    var end := ":" + GroupsText(after);
    assert "::" + GroupsText(after) == ":" + end;
    if i == 0 {
      NoGroups();
      assert before == [] && "" + (":" + end) == ":" + end;
      assert (":" + end)[1..] == end;
      ScanFromGap(after, end, []);
      assert [] + Bytes(after) == Bytes(after) && src[..0] + src == src;
    } else {
      var text := WithGap(src, i);
      GroupsStart(before);
      assert text[0] == GroupsText(before)[0];
      var tok' := ScanGroups(before, ":" + end, text, START);
      StoreWord(before, i);
      assert before[..i] == before;
      assert [] + Bytes(before[..i - 1]) == Bytes(before[..i - 1]);
      ScanColon(end, tok', After(Bytes(before[..i - 1]), None, before[i - 1]));
      ScanFromGap(after, end, Bytes(before));
    }
  }

  lemma GroupsStart(ws: seq<Word>)
    requires ws != []
    ensures GroupsText(ws) != "" && GroupsText(ws)[0] != ':'
  {
    HexStart(ws[0]);
  }

  /** So "::" in a full address is without effect exactly when only zeros are given
      after it. */
  lemma GapIsHarmlessExactlyBeforeZeros(src: seq<Byte>, i: nat)
    requires |src| == 16 && i <= 8
    ensures Parse(WithGap(src, i)) == Some(src) <==> forall k | i <= k < 8 :: Words(src)[k] == 0
  {
    hide Parse, Zeros, Words, WithGap;
    KeepsGroupsBeforeGap(src, i);
    SameExactlyBeforeZeros(src, i);
  }

  lemma SameExactlyBeforeZeros(src: seq<Byte>, i: nat)
    requires |src| == 16 && i <= 8
    ensures src[..2 * i] + Zeros(16 - 2 * i) == src <==> forall k | i <= k < 8 :: Words(src)[k] == 0
  {
    var got := src[..2 * i] + Zeros(16 - 2 * i);
    assert forall j | 0 <= j < 16 :: got[j] == if j < 2 * i then src[j] else 0;
    hide Zeros;
    if forall k | i <= k < 8 :: Words(src)[k] == 0 {
      forall j | 0 <= j < 16 ensures got[j] == src[j] {
        var k := j / 2;
        assert j == 2 * k || j == 2 * k + 1;
        assert j >= 2 * i ==> Words(src)[k] == 0;
      }
      assert got == src;
    } else {
      var k :| i <= k < 8 && Words(src)[k] != 0;
      assert got[2 * k] == 0 == got[2 * k + 1];
      assert src[2 * k] != 0 || src[2 * k + 1] != 0;
    }
  }

  const ONE_TO_EIGHT: seq<Byte> := [0, 1, 0, 2, 0, 3, 0, 4, 0, 5, 0, 6, 0, 7, 0, 8]

  /** An instance: the last group is lost. */
  lemma LastGroupIsLost()
    ensures Parse("1:2:3:4:5:6:7::8") == Some([0, 1, 0, 2, 0, 3, 0, 4, 0, 5, 0, 6, 0, 7, 0, 0])
  {
    OneToEightText();
    KeepsGroupsBeforeGap(ONE_TO_EIGHT, 7);
    hide *;
    SevenKept();
  }

  lemma SevenKept()
    ensures ONE_TO_EIGHT[..14] + Zeros(2) == [0, 1, 0, 2, 0, 3, 0, 4, 0, 5, 0, 6, 0, 7, 0, 0]
  {
  }

  lemma OneToEightText()
    ensures WithGap(ONE_TO_EIGHT, 7) == "1:2:3:4:5:6:7::8"
  {
    hide GroupsText, Words;
    var ws := Words(ONE_TO_EIGHT);
    OneToEight();
    assert ws[..7] == [1, 2, 3, 4, 5, 6, 7] && ws[7..] == [8];
    OneGroup(8);
    SevenText();
    assert "1:2:3:4:5:6:7" + ("::" + "8") == "1:2:3:4:5:6:7::8";
  }

  lemma SevenText()
    ensures GroupsText([1, 2, 3, 4, 5, 6, 7]) == "1:2:3:4:5:6:7"
  {
    hide GroupsText;
    OneGroup(7);
    MoreGroups([6, 7], "6:7");
    MoreGroups([5, 6, 7], "5:6:7");
    MoreGroups([4, 5, 6, 7], "4:5:6:7");
    MoreGroups([3, 4, 5, 6, 7], "3:4:5:6:7");
    MoreGroups([2, 3, 4, 5, 6, 7], "2:3:4:5:6:7");
    MoreGroups([1, 2, 3, 4, 5, 6, 7], "1:2:3:4:5:6:7");
  }

  lemma OneToEight()
    ensures Words(ONE_TO_EIGHT) == [1, 2, 3, 4, 5, 6, 7, 8]
  {
  }

  lemma OneGroup(w: Word)
    requires w < 10
    ensures GroupsText([w]) == [('0' as int + w) as char]
  {
  }

  lemma MoreGroups(ws: seq<Word>, text: string)
    requires |ws| > 1 && ws[0] < 10 && text == [('0' as int + ws[0]) as char] + ":" + GroupsText(ws[1..])
    ensures GroupsText(ws) == text
  {
  }
}
