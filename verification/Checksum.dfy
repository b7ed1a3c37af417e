/** The Internet checksum: the 32-bit accumulator and its two folds compute the
    one's-complement sum of 16-bit words. */
module Checksum {
  import opened Common

  const WRAP := 0x1_0000_0000

  // ----- the one's-complement sum (RFC 1071, sections 1 and 2) -----

  /** Addition with end-around carry. */
  function OcAdd(a: Word, b: Word): Word { if a + b > 65535 then a + b - 65535 else a + b }

  function OcSum(ws: seq<Word>): Word {
    if ws == [] then 0 else OcAdd(OcSum(ws[..|ws| - 1]), ws[|ws| - 1])
  }

  function Sum(ws: seq<Word>): nat {
    if ws == [] then 0 else Sum(ws[..|ws| - 1]) + ws[|ws| - 1]
  }

  /** The number from 1 to 65535 congruent to a positive `s` modulo 65535. */
  function Norm(s: nat): Word { if s == 0 then 0 else (s - 1) % 65535 + 1 }

  lemma NormIs(s: nat, r: Word, k: int)
    requires s == r + 65535 * k && (r == 0 <==> s == 0)
    ensures Norm(s) == r
  {
    if s > 0 {
      ModIs(s - 1, r - 1, k);
    }
  }

  lemma ModIs(a: nat, r: nat, k: int)
    requires a == r + 65535 * k && r < 65535
    ensures a % 65535 == r
  {
  }

  lemma NormHas(s: nat) returns (k: int)
    ensures s == Norm(s) + 65535 * k && (Norm(s) == 0 <==> s == 0)
  {
    k := if s == 0 then 0 else (s - 1) / 65535;
  }

  lemma {:induction false} OcSumIsNorm(ws: seq<Word>)
    ensures OcSum(ws) == Norm(Sum(ws))
  {
    if ws == [] {
    } else {
      var last := |ws| - 1;
      OcSumIsNorm(ws[..last]);
      var k := NormHas(Sum(ws[..last]));
      var carry := if OcSum(ws[..last]) + ws[last] > 65535 then 1 else 0;
      NormIs(Sum(ws), OcSum(ws), k + carry);
    }
  }

  // ----- order does not matter -----

  lemma {:induction false} SumSplits(a: seq<Word>, b: seq<Word>)
    ensures Sum(a + b) == Sum(a) + Sum(b)
  {
    if b == [] {
      assert a + b == a;
    } else {
      assert (a + b)[..|a + b| - 1] == a + b[..|b| - 1];
      SumSplits(a, b[..|b| - 1]);
    }
  }

  lemma SumWithout(ws: seq<Word>, k: nat)
    requires k < |ws|
    ensures Sum(ws) == Sum(ws[..k] + ws[k + 1..]) + ws[k]
    ensures multiset(ws[..k] + ws[k + 1..]) == multiset(ws) - multiset{ws[k]}
  {
    hide Sum;
    var a, x, b := ws[..k], [ws[k]], ws[k + 1..];
    assert ws == a + (x + b);
    assert multiset(a + (x + b)) == multiset(a) + multiset(x) + multiset(b);
    SumSplits(a, x + b);
    SumSplits(x, b);
    SumSplits(a, b);
    SumOfOne(ws[k]);
  }

  lemma SumOfOne(w: Word)
    ensures Sum([w]) == w
  {
    assert Sum([w]) == Sum([]) + w;
  }

  lemma {:induction false} SumIgnoresOrder(a: seq<Word>, b: seq<Word>)
    requires multiset(a) == multiset(b)
    ensures Sum(a) == Sum(b)
    decreases |a|
  {
    assert |a| == |multiset(a)| == |multiset(b)| == |b|;
    if a == [] {
    } else {
      var last := |a| - 1;
      assert a == a[..last] + [a[last]];
      assert a[last] in multiset(b);
      var k :| 0 <= k < |b| && b[k] == a[last];
      SumWithout(b, k);
      assert multiset(a[..last]) == multiset(a) - multiset{a[last]};
      SumIgnoresOrder(a[..last], b[..k] + b[k + 1..]);
    }
  }

  /** The checksum does not depend on the order of the words. */
  lemma OcSumIgnoresOrder(a: seq<Word>, b: seq<Word>)
    requires multiset(a) == multiset(b)
    ensures OcSum(a) == OcSum(b)
  {
    SumIgnoresOrder(a, b);
    OcSumIsNorm(a);
    OcSumIsNorm(b);
  }

  // ----- the accumulator -----

  lemma {:induction false} SumBound(ws: seq<Word>)
    ensures Sum(ws) <= 65535 * |ws|
  {
    if ws == [] {
    } else {
      SumBound(ws[..|ws| - 1]);
    }
  }

  lemma {:induction false} SumOfOnes(n: nat)
    ensures Sum(seq(n, _ => 65535)) == 65535 * n
  {
    if n == 0 {
    } else {
      assert seq(n, _ => 65535)[..n - 1] == seq(n - 1, _ => 65535);
      SumOfOnes(n - 1);
    }
  }

  /** 65,537 words are the most whose sum always fits in 32 bits. */
  lemma AccumulatorBoundIsExact(n: nat)
    ensures n <= 65537 <==> forall ws: seq<Word> | |ws| == n :: Sum(ws) < WRAP
  {
    if n <= 65537 {
      forall ws: seq<Word> | |ws| == n ensures Sum(ws) < WRAP {
        SumBound(ws);
      }
    } else {
      SumOfOnes(n);
      var ones: seq<Word> := seq(n, _ => 65535);
      assert |ones| == n && Sum(ones) >= WRAP;
    }
  }

  /** Two folds of the accumulator. */
  function Folded(sum: nat): Word {
    var once := sum / 65536 + sum % 65536;
    (once + once / 65536) % 65536
  }

  /** Two folds are enough for any 32-bit sum. */
  lemma FoldedIsNorm(sum: nat)
    requires sum < WRAP
    ensures Folded(sum) == Norm(sum)
  {
    var hi, lo := sum / 65536, sum % 65536;
    assert sum == 65536 * hi + lo;
    NormIs(sum, Folded(sum), hi + (hi + lo) / 65536);
  }

  // ----- bytes to words -----

  /** A word as the machine reads two bytes in memory order. */
  function WordOf(first: Byte, second: Byte, little: bool): Word {
    if little then second * 256 + first else first * 256 + second
  }

  /** The words of a buffer; an odd last byte is followed by a zero byte. */
  function WordsOf(bytes: seq<Byte>, little: bool): (ws: seq<Word>)
    ensures |ws| == (|bytes| + 1) / 2
  {
    seq((|bytes| + 1) / 2, i requires 0 <= i < (|bytes| + 1) / 2 =>
      WordOf(bytes[2 * i], if 2 * i + 1 < |bytes| then bytes[2 * i + 1] else 0, little))
  }

  /** An odd buffer has the words, and so the checksum, of the buffer with a zero byte more. */
  lemma OddIsPadded(bytes: seq<Byte>, little: bool)
    ensures |bytes| % 2 == 1 ==> WordsOf(bytes, little) == WordsOf(bytes + [0], little)
    ensures forall i | 0 <= i < |bytes| / 2 ::
      WordsOf(bytes, little)[i] == WordOf(bytes[2 * i], bytes[2 * i + 1], little)
  {
    if |bytes| % 2 == 1 {
      var padded := bytes + [0];
      forall i | 0 <= i < |padded| / 2 ensures WordsOf(bytes, little)[i] == WordsOf(padded, little)[i] {
        assert 2 * i + 1 < |padded| && padded[2 * i] == bytes[2 * i];
      }
    }
  }

  lemma SumOfNone()
    ensures Sum([]) == 0
  {
  }

  lemma SumNext(ws: seq<Word>, i: nat)
    requires i < |ws| <= 65537
    ensures (Sum(ws[..i]) + ws[i]) % WRAP == Sum(ws[..i + 1]) < WRAP
  {
    assert ws[..i + 1][..i] == ws[..i];
    SumBound(ws[..i + 1]);
  }

  /** The second fold does not wrap at 32 bits. */
  lemma FoldsDoNotWrap(sum: nat)
    requires sum < WRAP
    ensures var once := sum / 65536 + sum % 65536;
      (once + once / 65536) % WRAP % 65536 == Folded(sum)
  {
  }

  /** `in_cksum`.  Every addition wraps at 32 bits; up to 65,537 words none does. */
  method InCksum(addr: seq<Byte>, little: bool) returns (answer: Word)
    ensures |addr| <= 2 * 65537 ==> answer == 65535 - OcSum(WordsOf(addr, little))
  {
    hide Sum, OcSum, Norm, Folded;
    var nleft := |addr|;
    var sum: nat := 0;
    var w := 0;
    ghost var ws := WordsOf(addr, little);
    ghost var fits := |ws| <= 65537;
    SumOfNone();
    assert ws[..0] == [];
    while nleft > 1
      invariant 0 <= w && nleft == |addr| - 2 * w && nleft >= 0 && sum < WRAP
      invariant fits ==> sum == Sum(ws[..w])
    {
      if fits {
        SumNext(ws, w);
      }
      sum := (sum + WordOf(addr[2 * w], addr[2 * w + 1], little)) % WRAP;
      w := w + 1;
      nleft := nleft - 2;
    }
    if nleft == 1 {
      if fits {
        SumNext(ws, w);
      }
      sum := (sum + WordOf(addr[2 * w], 0, little)) % WRAP;
      w := w + 1;
    }
    assert ws[..w] == ws;
    FoldsDoNotWrap(sum);
    FoldedIsNorm(sum);
    OcSumIsNorm(ws);
    sum := sum / 65536 + sum % 65536;
    sum := (sum + sum / 65536) % WRAP;
    answer := 65535 - sum % 65536;
  }

  // ----- a stored checksum verifies -----

  /** What is stored in the zeroed checksum word; the UDP sender replaces 0 by
      0xffff. */
  function Stored(cksum: Word, udp: bool): Word { if udp && cksum == 0 then 65535 else cksum }

  /** In UDP a zero word would say that there is no checksum: what is stored is never that,
      and always worth the same in the sum. */
  lemma StoredIs(c: Word, udp: bool)
    ensures Stored(c, udp) % 65535 == c % 65535
    ensures udp ==> Stored(c, udp) != 0
    ensures !udp || c != 0 ==> Stored(c, udp) == c
  {
  }

  lemma SumReplaced(ws: seq<Word>, k: nat, c: Word)
    requires k < |ws| && ws[k] == 0
    ensures Sum(ws[k := c]) == Sum(ws) + c
  {
    SumWithout(ws, k);
    SumWithout(ws[k := c], k);
    assert ws[k := c][..k] + ws[k := c][k + 1..] == ws[..k] + ws[k + 1..];
  }

  /** Over a buffer whose zeroed checksum word has been filled in, the
      one's-complement sum is 0xffff, so its checksum is 0. */
  lemma StoredChecksumVerifies(ws: seq<Word>, k: nat, udp: bool)
    requires k < |ws| && ws[k] == 0
    ensures OcSum(ws[k := Stored(65535 - OcSum(ws), udp)]) == 65535
  {
    var c := Stored(65535 - OcSum(ws), udp);
    var s := Sum(ws);
    OcSumIsNorm(ws);
    OcSumIsNorm(ws[k := c]);
    SumReplaced(ws, k, c);
    var q := NormHas(s);
    NormIs(s + c, 65535, if c == 65535 - Norm(s) then q else q + 1);
  }

  // ----- either byte order -----

  function Swap(w: Word): Word { w % 256 * 256 + w / 256 }

  function Swapped(ws: seq<Word>): (r: seq<Word>)
    ensures |r| == |ws|
  {
    seq(|ws|, i requires 0 <= i < |ws| => Swap(ws[i]))
  }

  lemma {:induction false} SumSwapped(ws: seq<Word>) returns (h: nat)
    ensures Sum(Swapped(ws)) + 65535 * h == 256 * Sum(ws)
    ensures Sum(Swapped(ws)) == 0 <==> Sum(ws) == 0
  {
    if ws == [] {
      h := 0;
    } else {
      var last := |ws| - 1;
      h := SumSwapped(ws[..last]);
      assert Swapped(ws)[..last] == Swapped(ws[..last]);
      h := h + ws[last] / 256;
    }
  }

  /** Summing with the bytes of every word exchanged exchanges the bytes of the
      sum, so machines of either byte order store the same checksum bytes. */
  lemma ByteOrderDoesNotMatter(bytes: seq<Byte>)
    ensures 65535 - OcSum(WordsOf(bytes, true)) == Swap(65535 - OcSum(WordsOf(bytes, false)))
  {
    hide Swap, Norm, OcSum, Sum, WordsOf;
    var big := WordsOf(bytes, false);
    SwappedWords(bytes);
    OcSumIsNorm(big);
    OcSumIsNorm(Swapped(big));
    var s, r := Sum(big), Norm(Sum(big));
    var h := SumSwapped(big);
    var k := NormHas(s);
    SwapIs(r);
    NormIs(Sum(Swapped(big)), Swap(r), r / 256 + 256 * k - h);
    SwapComplement(r);
  }

  lemma SwapIs(w: Word)
    ensures 256 * w == Swap(w) + 65535 * (w / 256) && (Swap(w) == 0 <==> w == 0)
  {
  }

  lemma SwapComplement(w: Word)
    ensures 65535 - Swap(w) == Swap(65535 - w)
  {
  }

  lemma SwapWord(first: Byte, second: Byte)
    ensures Swap(WordOf(first, second, false)) == WordOf(first, second, true)
  {
  }

  lemma SwappedWords(bytes: seq<Byte>)
    ensures Swapped(WordsOf(bytes, false)) == WordsOf(bytes, true)
  {
    forall i | 0 <= i < (|bytes| + 1) / 2
      ensures Swapped(WordsOf(bytes, false))[i] == WordsOf(bytes, true)[i]
    {
      SwapWord(bytes[2 * i], if 2 * i + 1 < |bytes| then bytes[2 * i + 1] else 0);
    }
  }

  // ----- a checksum stored in its packet -----

  /** A word as it lies in memory. */
  function BytesOfWord(w: Word, little: bool): (Byte, Byte) {
    if little then (w % 256, w / 256) else (w / 256, w % 256)
  }

  lemma WordReplaced(bytes: seq<Byte>, at: nat, c: Word, little: bool)
    requires at % 2 == 0 && at + 1 < |bytes|
    ensures var (first, second) := BytesOfWord(c, little);
      WordsOf(bytes[at := first][at + 1 := second], little) == WordsOf(bytes, little)[at / 2 := c]
  {
    var (first, second) := BytesOfWord(c, little);
    var after := bytes[at := first][at + 1 := second];
    var ws, old_ := WordsOf(after, little), WordsOf(bytes, little);
    assert WordOf(first, second, little) == c;
    forall i | 0 <= i < |ws| ensures ws[i] == old_[at / 2 := c][i] {
      if i != at / 2 {
        assert after[2 * i] == bytes[2 * i];
        assert 2 * i + 1 < |bytes| ==> after[2 * i + 1] == bytes[2 * i + 1];
      } else {
        assert 2 * i == at;
      }
    }
  }

  /** Fills in the zeroed checksum word at `at`.  On a machine of either byte order
      the packet then sums to 0xffff. */
  method StoreChecksum(packet: array<Byte>, at: nat, little: bool, udp: bool)
    requires at % 2 == 0 && at + 1 < packet.Length <= 2 * 65537 && packet[at] == 0 == packet[at + 1]
    modifies packet
    ensures forall k | 0 <= k < packet.Length && k != at && k != at + 1 :: packet[k] == old(packet[k])
    ensures forall order :: OcSum(WordsOf(packet[..], order)) == 65535
    ensures (packet[at], packet[at + 1])
         == BytesOfWord(Stored(65535 - OcSum(WordsOf(old(packet[..]), little)), udp), little)
    ensures udp ==> packet[at] != 0 || packet[at + 1] != 0
  {
    hide OcSum, Swap;
    ghost var ws := WordsOf(packet[..], little);
    assert ws[at / 2] == 0 by {
      assert 2 * (at / 2) == at;
    }
    var cksum := InCksum(packet[..], little);
    if udp && cksum == 0 {
      cksum := 65535;
    }
    StoredChecksumVerifies(ws, at / 2, udp);
    WordReplaced(packet[..], at, cksum, little);
    ghost var was: seq<Byte> := packet[..];
    var (first, second) := BytesOfWord(cksum, little);
    packet[at] := first;
    packet[at + 1] := second;
    assert packet[..] == was[at := first][at + 1 := second];
    EitherOrderVerifies(packet[..], little);
    StoredIs(65535 - OcSum(ws), udp);
  }

  lemma EitherOrderVerifies(bytes: seq<Byte>, little: bool)
    requires OcSum(WordsOf(bytes, little)) == 65535
    ensures forall order :: OcSum(WordsOf(bytes, order)) == 65535
  {
    hide OcSum, WordsOf;
    ByteOrderDoesNotMatter(bytes);
    var a, b := 65535 - OcSum(WordsOf(bytes, true)), 65535 - OcSum(WordsOf(bytes, false));
    assert a == 0 <==> b == 0;
    assert forall order | order :: WordsOf(bytes, order) == WordsOf(bytes, true);
    assert forall order | !order :: WordsOf(bytes, order) == WordsOf(bytes, false);
  }

  /** The sender stores the checksum and the receiver, perhaps of the other byte
      order, checks it: it gets 0. */
  method SendThenCheck(packet: array<Byte>, at: nat, senderLittle: bool, receiverLittle: bool, udp: bool)
      returns (check: Word)
    requires at % 2 == 0 && at + 1 < packet.Length <= 2 * 65537 && packet[at] == 0 == packet[at + 1]
    modifies packet
    ensures check == 0
  {
    StoreChecksum(packet, at, senderLittle, udp);
    check := InCksum(packet[..], receiverLittle);
  }
}
