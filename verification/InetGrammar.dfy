/** Exactly which texts the IPv6 parser accepts, and what it makes of them.  Between
    colons stand groups: hexadecimal digits, as many as one likes, of value up to
    0xffff; empty ones where "::" is; and at the end possibly a dotted quad, or
    nothing after one last colon. */
module InetGrammar {
  import opened Common
  import opened InetText
  import opened InetQuadGrammar

  predicate AllHex(p: string) { forall k | 0 <= k < |p| :: DigitValue(p[k]).Some? }

  function HexOf(p: string): nat
    requires AllHex(p)
  {
    if p == "" then 0 else HexOf(p[..|p| - 1]) * 16 + DigitValue(p[|p| - 1]).value
  }

  predicate IsGroup(p: string) { p != "" && AllHex(p) && HexOf(p) <= 0xffff }

  /** As AcceptsExactlyDottedQuads says, four octets with dots between. */
  predicate IsQuad(p: string) { ParseQuad(p).Some? }

  /** The bytes one part of the text stands for. */
  function PartBytes(p: string): seq<Byte> {
    if IsGroup(p) then WordBytes(HexOf(p)) else if IsQuad(p) then ParseQuad(p).value else []
  }

  // ----- the grammar -----

  /** Groups, some perhaps empty, then a group, a quad or nothing. */
  predicate WellFormed(ps: seq<string>)
    requires ps != []
  {
    if |ps| == 1 then ps[0] == "" || IsGroup(ps[0]) || IsQuad(ps[0])
    else (ps[0] == "" || IsGroup(ps[0])) && WellFormed(ps[1..])
  }

  function AllBytes(ps: seq<string>): seq<Byte> {
    if ps == [] then [] else PartBytes(ps[0]) + AllBytes(ps[1..])
  }

  /** How many of the parts before the last are empty. */
  function Gaps(ps: seq<string>): nat {
    if |ps| <= 1 then 0 else Gaps(ps[1..]) + if ps[0] == "" then 1 else 0
  }

  /** How many bytes come before the first gap. */
  function GapAt(ps: seq<string>): Option<nat> {
    if |ps| <= 1 then None
    else if ps[0] == "" then Some(0)
    else
      var later := GapAt(ps[1..]);
      if later.None? then None else Some(|PartBytes(ps[0])| + later.value)
  }

  /** The address a text in parts spells: all sixteen bytes, or fewer with one gap,
      which is filled with zeros. */
  function Meaning(ps: seq<string>): Option<seq<Byte>>
    requires ps != []
  {
    var bytes := AllBytes(ps);
    if !WellFormed(ps) || |bytes| > 16 || Gaps(ps) > 1 then None
    else
      match GapAt(ps)
      case None => if |bytes| == 16 then Some(bytes) else None
      case Some(k) => if k <= |bytes| then Some(Shifted(bytes, k)) else None
  }

  // ----- reading part by part -----

  /** What reading the parts should leave, nothing pending. */
  function Take(out: seq<Byte>, colon: Option<nat>, ps: seq<string>): Option<Scan>
    requires ps != []
    decreases |ps|
  {
    var p := ps[0];
    if |ps| == 1 then
      if (p == "" || IsGroup(p) || IsQuad(p)) && |out| + |PartBytes(p)| <= 16
      then Some(Scan(out + PartBytes(p), colon, 0, false)) else None
    else if p == "" then if colon.Some? then None else Take(out, Some(|out|), ps[1..])
    else if IsGroup(p) && |out| + 2 <= 16 then Take(out + PartBytes(p), colon, ps[1..])
    else None
  }

  /** The pending value stored. */
  function Stored(r: Option<Scan>): Option<Scan> {
    if r.None? then None
    else if !r.value.saw then Some(Scan(r.value.out, r.value.colon, 0, false))
    else if |r.value.out| + 2 > 16 then None
    else Some(Scan(r.value.out + WordBytes(r.value.val), r.value.colon, 0, false))
  }

  function After(p: string, ps: seq<string>): (r: seq<string>)
    requires ps != []
    ensures r != []
  {
    [p + ps[0]] + ps[1..]
  }

  // ----- single parts -----

  lemma {:induction false} QuadChars(text: string, done: seq<Byte>, cur: Byte, saw: bool, k: nat)
    requires k < |text| && !IsDecimal(text[k]) && text[k] != '.'
    ensures ParseQuadFrom(text, done, cur, saw).None?
    decreases |text|
  {
    if k == 0 {
    } else {
      if IsDecimal(text[0]) {
        var new_ := cur * 10 + (text[0] as int - '0' as int);
        if new_ <= 255 {
          QuadChars(text[1..], done, new_, true, k - 1);
        }
      } else {
        QuadChars(text[1..], done + [cur], 0, false, k - 1);
      }
    }
  }

  /** A part with a character that no group has is a quad or nothing. */
  lemma NotGroup(p: string, k: nat)
    requires k < |p| && DigitValue(p[k]).None?
    ensures p != "" && !IsGroup(p)
    ensures p[k] != '.' ==> !IsQuad(p)
  {
    if p[k] != '.' {
      QuadChars(p, [], 0, false, k);
    }
  }

  lemma LongerHex(p: string, c: char)
    requires AllHex(p) && DigitValue(c).Some?
    ensures AllHex(p + [c]) && HexOf(p + [c]) == HexOf(p) * 16 + DigitValue(c).value
  {
    assert (p + [c])[..|p + [c]| - 1] == p;
  }

  lemma {:induction false} LongerHexIsGreater(a: string, b: string)
    requires AllHex(a + b)
    ensures AllHex(a) && HexOf(a + b) >= HexOf(a)
  {
    assert forall k | 0 <= k < |a| :: a[k] == (a + b)[k];
    if b == "" {
      assert a + b == a;
    } else {
      var shorter := b[..|b| - 1];
      assert (a + b)[..|a + b| - 1] == a + shorter;
      LongerHexIsGreater(a, shorter);
    }
  }

  /** A decimal number of few digits is not much larger read as hexadecimal. */
  lemma {:induction false} DecimalAsHex(p: string, digits: nat)
    requires AllDecimal(p) && digits <= 3
    requires NumberOf(p) < if digits == 0 then 1 else if digits == 1 then 10 else if digits == 2 then 100 else 1000
    ensures AllHex(p)
    ensures HexOf(p) < if digits == 0 then 1 else if digits == 1 then 16 else if digits == 2 then 256 else 4096
    decreases |p|
  {
    if p == "" {
    } else {
      var front := p[..|p| - 1];
      assert IsDecimal(p[|p| - 1]);
      DecimalAsHex(front, if digits == 0 then 0 else digits - 1);
      assert AllHex(p);
    }
  }

  lemma {:induction false} PartsOfPrefix(p: string, rest: string, sep: char)
    requires forall k | 0 <= k < |p| :: p[k] != sep
    ensures Parts(p + rest, sep) == After(p, Parts(rest, sep))
  {
    var ps := Parts(rest, sep);
    if p == "" {
      assert p + rest == rest && "" + ps[0] == ps[0];
    } else {
      PartsOfPrefix(p[1..], rest, sep);
      assert (p + rest)[1..] == p[1..] + rest;
      assert [p[0]] + (p[1..] + ps[0]) == p + ps[0];
    }
  }

  /** Digits worth too much cannot begin a group, nor an octet. */
  lemma TooMuch(p: string, more: string)
    requires AllHex(p) && HexOf(p) > 0xffff
    ensures p + more != "" && !IsGroup(p + more) && !IsQuad(p + more)
  {
    if AllHex(p + more) {
      LongerHexIsGreater(p, more);
    }
    PartsOfPrefix(p, more, '.');
    AcceptsExactlyDottedQuads(p + more);
    var octet := p + Parts(more, '.')[0];
    if IsOctet(octet) {
      LongerIsGreater(p, Parts(more, '.')[0]);
      DecimalAsHex(p, 3);
    }
  }

  // ----- the scan -----

  lemma TakeDigit(out: seq<Byte>, colon: Option<nat>, p: string, rest: string)
    requires rest != "" && rest[0] != ':'
    ensures Take(out, colon, After(p, Parts(rest, ':'))) ==
      Take(out, colon, After(p + [rest[0]], Parts(rest[1..], ':')))
  {
    var ps := Parts(rest[1..], ':');
    assert p + ([rest[0]] + ps[0]) == (p + [rest[0]]) + ps[0];
    assert Parts(rest, ':')[1..] == ps[1..];
  }

  lemma TakeColon(out: seq<Byte>, colon: Option<nat>, p: string, rest: string)
    requires rest != "" && rest[0] == ':'
    ensures var ps := Parts(rest[1..], ':');
      Take(out, colon, After(p, Parts(rest, ':'))) ==
        if p == "" then if colon.Some? then None else Take(out, Some(|out|), ps)
        else if IsGroup(p) && |out| + 2 <= 16 then Take(out + PartBytes(p), colon, ps)
        else None
    ensures After("", Parts(rest[1..], ':')) == Parts(rest[1..], ':')
  {
    var ps := Parts(rest[1..], ':');
    assert p + "" == p && "" + ps[0] == ps[0];
    assert After(p, Parts(rest, ':')) == [p] + ps && ([p] + ps)[1..] == ps;
  }

  lemma TakeTooMuch(out: seq<Byte>, colon: Option<nat>, p: string, rest: string)
    requires AllHex(p) && HexOf(p) > 0xffff
    ensures Take(out, colon, After(p, Parts(rest, ':'))).None?
  {
    TooMuch(p, Parts(rest, ':')[0]);
  }

  /** A character that is neither digit nor colon: only a quad, at the end, has it. */
  lemma TakeOther(out: seq<Byte>, colon: Option<nat>, p: string, rest: string)
    requires AllHex(p) && rest != "" && DigitValue(rest[0]).None? && rest[0] != ':'
    ensures Take(out, colon, After(p, Parts(rest, ':'))) ==
      if rest[0] == '.' && |out| + 4 <= 16 && IsQuad(p + rest)
      then Some(Scan(out + ParseQuad(p + rest).value, colon, 0, false))
      else None
  {
    var ps := After(p, Parts(rest, ':'));
    assert ps[0][|p|] == rest[0];
    NotGroup(ps[0], |p|);
    if |ps| == 1 {
      OnePart(rest, ':');
    } else {
      var k := SomeSeparator(rest, ':');
      NotGroup(p + rest, |p| + k);
    }
  }

  lemma {:induction false} OnePart(s: string, sep: char)
    requires |Parts(s, sep)| == 1
    ensures Parts(s, sep) == [s]
  {
    if s == "" {
    } else {
      OnePart(s[1..], sep);
      assert [s[0]] + s[1..] == s;
    }
  }

  lemma {:induction false} SomeSeparator(s: string, sep: char) returns (k: nat)
    requires |Parts(s, sep)| > 1
    ensures k < |s| && s[k] == sep
  {
    if s[0] == sep {
      k := 0;
    } else {
      k := SomeSeparator(s[1..], sep);
      k := k + 1;
    }
  }

  /** The parser's loop, with the digits `p` of a group read, takes the rest part by
      part. */
  lemma {:induction false} ScansAsTaken(rest: string, p: string, out: seq<Byte>, colon: Option<nat>)
    requires AllHex(p) && HexOf(p) <= 0xffff && |out| <= 16
    ensures Stored(ScanFrom(rest, p + rest, Scan(out, colon, HexOf(p), p != ""))) ==
            Take(out, colon, After(p, Parts(rest, ':')))
    decreases |rest|
  {
    hide Take, IsGroup, IsQuad, PartBytes, After;
    if rest == "" {
      TakeEnd(out, colon, p);
    } else if DigitValue(rest[0]).Some? {
      var longer := p + [rest[0]];
      LongerHex(p, rest[0]);
      TakeDigit(out, colon, p, rest);
      assert longer + rest[1..] == p + rest;
      if HexOf(longer) > 0xffff {
        TakeTooMuch(out, colon, longer, rest[1..]);
      } else {
        ScansAsTaken(rest[1..], longer, out, colon);
      }
    } else if rest[0] == ':' {
      TakeColon(out, colon, p, rest);
      assert "" + rest[1..] == rest[1..];
      if p == "" {
        if colon.None? {
          ScansAsTaken(rest[1..], "", out, Some(|out|));
        }
      } else {
        GroupBytes(p);
        if |out| + 2 <= 16 {
          ScansAsTaken(rest[1..], "", out + PartBytes(p), colon);
        }
      }
    } else {
      TakeOther(out, colon, p, rest);
      DotScan(out, colon, p, rest);
    }
  }

  lemma GroupBytes(p: string)
    requires AllHex(p) && HexOf(p) <= 0xffff && p != ""
    ensures IsGroup(p) && PartBytes(p) == WordBytes(HexOf(p))
  {
  }

  lemma TakeEnd(out: seq<Byte>, colon: Option<nat>, p: string)
    requires AllHex(p) && HexOf(p) <= 0xffff && |out| <= 16
    ensures Take(out, colon, After(p, [""])) == Stored(Some(Scan(out, colon, HexOf(p), p != "")))
  {
    assert p + "" == p;
    assert out + [] == out;
  }

  lemma DotScan(out: seq<Byte>, colon: Option<nat>, p: string, rest: string)
    requires AllHex(p) && HexOf(p) <= 0xffff && rest != "" && DigitValue(rest[0]).None? && rest[0] != ':'
    ensures Stored(ScanFrom(rest, p + rest, Scan(out, colon, HexOf(p), p != ""))) ==
      if rest[0] == '.' && |out| + 4 <= 16 && IsQuad(p + rest)
      then Some(Scan(out + ParseQuad(p + rest).value, colon, 0, false))
      else None
  {
  }

  // ----- the whole -----

  /** Part by part or all at once. */
  lemma {:induction false} TakesAll(out: seq<Byte>, colon: Option<nat>, ps: seq<string>)
    requires ps != [] && |out| <= 16
    ensures Take(out, colon, ps) ==
      if WellFormed(ps) && |out| + |AllBytes(ps)| <= 16 && Gaps(ps) + (if colon.Some? then 1 else 0) <= 1
      then Some(Scan(out + AllBytes(ps),
                     if GapAt(ps).None? then colon else Some(|out| + GapAt(ps).value), 0, false))
      else None
    ensures GapAt(ps).None? <==> Gaps(ps) == 0
    ensures GapAt(ps).Some? ==> GapAt(ps).value <= |AllBytes(ps)|
    decreases |ps|
  {
    hide IsGroup, IsQuad, PartBytes;
    var p, b := ps[0], PartBytes(ps[0]);
    PartLength(p);
    if |ps| == 1 {
      assert ps[1..] == [] && b + [] == b;
    } else {
      JoinParts(out, b, AllBytes(ps[1..]));
      if p == "" {
        TakesAll(out, Some(|out|), ps[1..]);
      } else if IsGroup(p) && |out| + 2 <= 16 {
        TakesAll(out + b, colon, ps[1..]);
      } else {
        TakesAll(out, colon, ps[1..]);
      }
    }
  }

  lemma JoinParts(a: seq<Byte>, b: seq<Byte>, c: seq<Byte>)
    ensures a + (b + c) == (a + b) + c && |b + c| == |b| + |c|
    ensures b == [] ==> a + b == a && b + c == c
  {
  }

  lemma PartLength(p: string)
    ensures IsGroup(p) ==> |PartBytes(p)| == 2
    ensures p == "" ==> PartBytes(p) == []
  {
  }

  /** Acceptance, both ways, and the result. */
  lemma AcceptsExactlyAddresses(text: string)
    ensures Parse(text) ==
      match Skipped(text)
      case None => None
      case Some(t) => Meaning(Parts(t, ':'))
  {
    hide ScanFrom, Take, Parts, WellFormed, AllBytes, Gaps, GapAt;
    if Skipped(text).Some? {
      var t := Skipped(text).value;
      var ps := Parts(t, ':');
      ScansAsTaken(t, "", [], None);
      assert "" + t == t && "" + ps[0] == ps[0] && [ps[0]] + ps[1..] == ps;
      TakesAll([], None, ps);
      assert [] + AllBytes(ps) == AllBytes(ps);
      FinishStored(ScanFrom(t, t, START));
    }
  }

  lemma FinishStored(r: Option<Scan>)
    requires r.Some? ==> ScanOk(r.value)
    ensures (if r.None? then None else Finish(r.value)) ==
      if Stored(r).None? then None
      else
        var s := Stored(r).value;
        if s.colon.Some? then Some(Shifted(s.out, s.colon.value)) else if |s.out| == 16 then Some(s.out) else None
  {
  }

  /** More than addresses are accepted: one colon more after a group that ends one. */
  lemma TrailingColonIsIgnored(text: string)
    requires Skipped(text).Some?
    requires var ps := Parts(Skipped(text).value, ':'); IsGroup(ps[|ps| - 1])
    ensures Parse(text + ":") == Parse(text)
  {
    hide Parse, Meaning, IsGroup, IsQuad, Parts;
    var t := Skipped(text).value;
    PartsAppend(t, ':');
    MeaningAppend(Parts(t, ':'));
    AcceptsExactlyAddresses(text);
    AcceptsExactlyAddresses(text + ":");
    SkippedAppend(text);
  }

  lemma SkippedAppend(text: string)
    requires Skipped(text).Some?
    requires var ps := Parts(Skipped(text).value, ':'); IsGroup(ps[|ps| - 1])
    ensures Skipped(text + ":") == Some(Skipped(text).value + ":")
  {
    assert text != "";
    assert (text + ":")[1..] == text[1..] + ":";
  }

  lemma {:induction false} PartsAppend(s: string, sep: char)
    ensures Parts(s + [sep], sep) == Parts(s, sep) + [""]
  {
    if s == "" {
      assert s + [sep] == [sep] && [sep][1..] == "";
    } else {
      PartsAppend(s[1..], sep);
      assert (s + [sep])[1..] == s[1..] + [sep];
    }
  }

  lemma {:induction false} AppendEmpty(ps: seq<string>)
    requires ps != [] && IsGroup(ps[|ps| - 1])
    ensures WellFormed(ps + [""]) == WellFormed(ps) && AllBytes(ps + [""]) == AllBytes(ps)
    ensures Gaps(ps + [""]) == Gaps(ps) && GapAt(ps + [""]) == GapAt(ps)
  {
    assert (ps + [""])[1..] == ps[1..] + [""];
    if |ps| == 1 {
      assert ps[1..] == [] && AllBytes([""]) == PartBytes("") + AllBytes([]);
    } else {
      AppendEmpty(ps[1..]);
    }
  }

  lemma MeaningAppend(ps: seq<string>)
    requires ps != [] && IsGroup(ps[|ps| - 1])
    ensures Meaning(ps + [""]) == Meaning(ps)
  {
    AppendEmpty(ps);
  }
}
