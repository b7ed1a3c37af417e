/** Exactly which texts the IPv4 parser accepts, and what it makes of them:
    four nonempty decimal numbers up to 255, leading zeros allowed, with single
    dots between. */
module InetQuadGrammar {
  import opened Common
  import opened InetText

  /** The text between separators. */
  function Parts(s: string, sep: char): (ps: seq<string>)
    ensures ps != []
  {
    if s == "" then [""]
    else
      var rest := Parts(s[1..], sep);
      if s[0] == sep then [""] + rest else [[s[0]] + rest[0]] + rest[1..]
  }

  predicate AllDecimal(p: string) { forall k | 0 <= k < |p| :: IsDecimal(p[k]) }

  function NumberOf(p: string): nat
    requires AllDecimal(p)
  {
    if p == "" then 0 else NumberOf(p[..|p| - 1]) * 10 + (p[|p| - 1] as int - '0' as int)
  }

  predicate IsOctet(p: string) { p != "" && AllDecimal(p) && NumberOf(p) <= 255 }

  predicate AllOctets(ps: seq<string>) { ps == [] || (IsOctet(ps[0]) && AllOctets(ps[1..])) }

  function OctetsOf(ps: seq<string>): seq<Byte>
    requires AllOctets(ps)
  {
    if ps == [] then [] else [NumberOf(ps[0])] + OctetsOf(ps[1..])
  }

  lemma {:induction false} LongerIsGreater(a: string, b: string)
    requires AllDecimal(a + b)
    ensures AllDecimal(a) && NumberOf(a + b) >= NumberOf(a)
  {
    assert forall k | 0 <= k < |a| :: a[k] == (a + b)[k];
    if b == "" {
      assert a + b == a;
    } else {
      var shorter := b[..|b| - 1];
      assert (a + b)[..|a + b| - 1] == a + shorter;
      LongerIsGreater(a, shorter);
    }
  }

  /** What the parser should make of `rest` with `done` octets finished and the
      digits `p` of the next one read. */
  function Expected(done: seq<Byte>, p: string, rest: string): Option<seq<Byte>> {
    var ps := Parts(rest, '.');
    if |done| + |ps| == 4 && IsOctet(p + ps[0]) && AllOctets(ps[1..])
    then Some(done + [NumberOf(p + ps[0])] + OctetsOf(ps[1..])) else None
  }

  lemma ExpectedEnd(done: seq<Byte>, p: string)
    ensures Expected(done, p, "") == if |done| == 3 && IsOctet(p) then Some(done + [NumberOf(p)]) else None
  {
    assert p + "" == p && Parts("", '.')[1..] == [];
    if IsOctet(p) {
      assert done + [NumberOf(p)] + OctetsOf([]) == done + [NumberOf(p)];
    }
  }

  lemma ExpectedTooMany(done: seq<Byte>, p: string, rest: string)
    requires |done| >= 4
    ensures Expected(done, p, rest).None?
  {
  }

  lemma ExpectedDigit(done: seq<Byte>, p: string, rest: string)
    requires rest != "" && rest[0] != '.'
    ensures Expected(done, p, rest) == Expected(done, p + [rest[0]], rest[1..])
  {
    var ps := Parts(rest[1..], '.');
    assert p + ([rest[0]] + ps[0]) == (p + [rest[0]]) + ps[0];
    assert Parts(rest, '.')[1..] == ps[1..];
  }

  lemma ExpectedDot(done: seq<Byte>, p: string, rest: string)
    requires rest != "" && rest[0] == '.'
    ensures Expected(done, p, rest) ==
      if IsOctet(p) then Expected(done + [NumberOf(p)], "", rest[1..]) else None
  {
    hide IsOctet, NumberOf;
    var ps := Parts(rest[1..], '.');
    assert p + "" == p && "" + ps[0] == ps[0];
    assert Parts(rest, '.')[0] == "" && Parts(rest, '.')[1..] == ps;
    if IsOctet(p) && AllOctets(ps) {
      SameResult(done, p, ps);
    }
  }

  lemma SameResult(done: seq<Byte>, p: string, ps: seq<string>)
    requires IsOctet(p) && ps != [] && AllOctets(ps)
    ensures done + [NumberOf(p)] + OctetsOf(ps) == done + [NumberOf(p)] + [NumberOf(ps[0])] + OctetsOf(ps[1..])
  {
    hide IsOctet, NumberOf;
  }

  lemma NotDecimal(done: seq<Byte>, p: string, rest: string)
    requires rest != "" && rest[0] != '.' && !IsDecimal(rest[0])
    ensures Expected(done, p, rest).None?
  {
    var first := p + Parts(rest, '.')[0];
    assert first[|p|] == rest[0];
  }

  lemma TooGreat(done: seq<Byte>, p: string, rest: string)
    requires AllDecimal(p) && NumberOf(p) > 255
    ensures Expected(done, p, rest).None?
  {
    if AllDecimal(p + Parts(rest, '.')[0]) {
      LongerIsGreater(p, Parts(rest, '.')[0]);
    }
  }

  lemma LongerNumber(p: string, c: char)
    requires AllDecimal(p) && IsDecimal(c)
    ensures AllDecimal(p + [c]) && NumberOf(p + [c]) == NumberOf(p) * 10 + (c as int - '0' as int)
  {
    assert (p + [c])[..|p + [c]| - 1] == p;
  }

  lemma {:induction false} ParsesAsExpected(rest: string, done: seq<Byte>, p: string)
    requires |done| <= 3 && AllDecimal(p) && NumberOf(p) <= 255
    ensures ParseQuadFrom(rest, done, NumberOf(p), p != "") == Expected(done, p, rest)
    decreases |rest|
  {
    hide Expected;
    if rest == "" {
      ExpectedEnd(done, p);
    } else if IsDecimal(rest[0]) {
      var longer := p + [rest[0]];
      LongerNumber(p, rest[0]);
      ExpectedDigit(done, p, rest);
      hide NumberOf, AllDecimal;
      if NumberOf(longer) > 255 {
        TooGreat(done, longer, rest[1..]);
      } else {
        ParsesAsExpected(rest[1..], done, longer);
      }
    } else if rest[0] == '.' {
      ExpectedDot(done, p, rest);
      if p != "" && |done| == 3 {
        ExpectedTooMany(done + [NumberOf(p)], "", rest[1..]);
      } else if p != "" {
        ParsesAsExpected(rest[1..], done + [NumberOf(p)], "");
      }
    } else {
      NotDecimal(done, p, rest);
    }
  }

  /** Acceptance, both ways, and the result. */
  lemma AcceptsExactlyDottedQuads(text: string)
    ensures var ps := Parts(text, '.');
      ParseQuad(text) == if |ps| == 4 && AllOctets(ps) then Some(OctetsOf(ps)) else None
  {
    ParsesAsExpected(text, [], "");
    var ps := Parts(text, '.');
    assert "" + ps[0] == ps[0];
    if AllOctets(ps) {
      assert [] + [NumberOf(ps[0])] + OctetsOf(ps[1..]) == OctetsOf(ps);
    }
  }
}
