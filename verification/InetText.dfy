/** The text forms of IPv4 and IPv6 addresses: what the printers write and how
    the parsers read it, as functions on strings. */
module InetText {
  import opened Common

  // ----- numbers as text -----

  function Digit(d: nat): char
    requires d < 16
  {
    if d < 10 then ('0' as int + d) as char else ('a' as int + d - 10) as char
  }

  /** The value of a hexadecimal digit in either case. */
  function DigitValue(c: char): Option<nat> {
    if '0' <= c <= '9' then Some(c as int - '0' as int)
    else if 'a' <= c <= 'f' then Some(c as int - 'a' as int + 10)
    else if 'A' <= c <= 'F' then Some(c as int - 'A' as int + 10)
    else None
  }

  predicate IsDecimal(c: char) { '0' <= c <= '9' }

  /** `%x`. */
  function Hex(w: nat): string {
    if w < 16 then [Digit(w)] else Hex(w / 16) + [Digit(w % 16)]
  }

  /** `%u`. */
  function Dec(n: nat): string {
    if n < 10 then [Digit(n)] else Dec(n / 10) + [Digit(n % 10)]
  }

  // ----- dotted quads -----

  /** What `inet_ntop4` writes. */
  function Quad(src: seq<Byte>): string
    requires |src| == 4
  {
    Dec(src[0]) + "." + Dec(src[1]) + "." + Dec(src[2]) + "." + Dec(src[3])
  }

  /** `inet_pton4` with `done` octets finished, `cur` the one being read and
      `saw` whether it has a digit yet. */
  function ParseQuadFrom(rest: string, done: seq<Byte>, cur: Byte, saw: bool): (r: Option<seq<Byte>>)
    ensures r.Some? && |done| <= 3 ==> |r.value| == 4
    decreases |rest|
  {
    var octets := |done| + if saw then 1 else 0;
    if rest == "" then
      if octets < 4 then None else Some(done + [cur])
    else if IsDecimal(rest[0]) then
      var new_ := cur * 10 + (rest[0] as int - '0' as int);
      if new_ > 255 || (!saw && octets + 1 > 4) then None
      else ParseQuadFrom(rest[1..], done, new_, true)
    else if rest[0] == '.' && saw then
      if octets == 4 then None else ParseQuadFrom(rest[1..], done + [cur], 0, false)
    else None
  }

  function ParseQuad(text: string): (r: Option<seq<Byte>>)
    ensures r.Some? ==> |r.value| == 4
  {
    ParseQuadFrom(text, [], 0, false)
  }

  // ----- printing an IPv6 address -----

  /** A run of words: `base` is -1 when there is none. */
  datatype Run = Run(base: int, len: int)

  ghost predicate ZeroRun(words: seq<Word>, base: int, len: int) {
    0 <= base && 0 <= len && base + len <= |words| && forall k | base <= k < base + len :: words[k] == 0
  }

  /** The leftmost of the longest runs of two or more zero words, if there is one. */
  ghost predicate IsBestRun(words: seq<Word>, run: Run) {
    if run.base == -1 then forall b, l | ZeroRun(words, b, l) :: l < 2
    else
      && ZeroRun(words, run.base, run.len) && run.len >= 2
      && forall b, l | ZeroRun(words, b, l) :: l <= run.len && (l == run.len ==> run.base <= b)
  }

  function Words(src: seq<Byte>): seq<Word>
    requires |src| == 16
  {
    seq(8, i requires 0 <= i < 8 => src[2 * i] as int * 256 + src[2 * i + 1] as int)
  }

  predicate InRun(run: Run, i: nat) { run.base != -1 && run.base <= i < run.base + run.len }

  /** The last 32 bits are printed as a dotted quad at this word. */
  predicate Embedded(words: seq<Word>, run: Run, i: nat)
    requires |words| == 8
  {
    i == 6 && run.base == 0 && (run.len == 6 || (run.len == 5 && words[5] == 0xffff))
  }

  /** What the formatting loop writes from word `i` on, and after it. */
  function FormatFrom(src: seq<Byte>, run: Run, i: nat): string
    requires |src| == 16 && i <= 8
    decreases 8 - i, 1
  {
    if i == 8 then Trailer(run)
    else if InRun(run, i) then (if i == run.base then ":" else "") + FormatFrom(src, run, i + 1)
    else (if i != 0 then ":" else "") + PieceFrom(src, run, i)
  }

  /** The same for a word outside the run, less the colon before it. */
  function PieceFrom(src: seq<Byte>, run: Run, i: nat): string
    requires |src| == 16 && i < 8
    decreases 8 - i, 0
  {
    if Embedded(Words(src), run, i) then Quad(src[12..]) + Trailer(run)
    else Hex(Words(src)[i]) + FormatFrom(src, run, i + 1)
  }

  function Trailer(run: Run): string {
    if run.base != -1 && run.base + run.len == 8 then ":" else ""
  }

  function Format(src: seq<Byte>, run: Run): string
    requires |src| == 16
  {
    FormatFrom(src, run, 0)
  }

  // ----- parsing an IPv6 address -----

  /** What the parsing loop leaves: the bytes stored, where `::` was seen, and the
      value not yet stored. */
  datatype Scan = Scan(out: seq<Byte>, colon: Option<nat>, val: Word, saw: bool)

  ghost predicate ScanOk(s: Scan) { |s.out| <= 16 && (s.colon.Some? ==> s.colon.value <= |s.out|) }

  function WordBytes(w: Word): seq<Byte> { [w / 256, w % 256] }

  /** The parsing loop on the text that is left; `tok` is the text since the
      last colon. */
  function ScanFrom(rest: string, tok: string, s: Scan): (r: Option<Scan>)
    ensures r.Some? && ScanOk(s) ==> ScanOk(r.value)
    decreases |rest|
  {
    if rest == "" then Some(s)
    else if DigitValue(rest[0]).Some? then
      var val := s.val * 16 + DigitValue(rest[0]).value;
      if val > 0xffff then None else ScanFrom(rest[1..], tok, s.(val := val, saw := true))
    else if rest[0] == ':' then
      if !s.saw then
        if s.colon.Some? then None else ScanFrom(rest[1..], rest[1..], s.(colon := Some(|s.out|)))
      else if |s.out| + 2 > 16 then None
      else ScanFrom(rest[1..], rest[1..], Scan(s.out + WordBytes(s.val), s.colon, 0, false))
    else if rest[0] == '.' && |s.out| + 4 <= 16 && ParseQuad(tok).Some? then
      Some(s.(out := s.out + ParseQuad(tok).value, saw := false))
    else None
  }

  function Zeros(n: nat): seq<Byte> { seq(n, _ => 0) }

  /** What the shift loop makes of `out`, stored at the front of 16 zero bytes,
      when `::` was seen at `colon`.  If nothing is left for the gap, each byte is
      moved onto itself and then cleared. */
  function Shifted(out: seq<Byte>, colon: nat): (r: seq<Byte>)
    requires colon <= |out| <= 16
    ensures |r| == 16
  {
    if |out| == 16 then out[..colon] + Zeros(16 - colon)
    else out[..colon] + Zeros(16 - |out|) + out[colon..]
  }

  /** What follows the loop: store a pending value, make room for `::`, and insist
      on 16 bytes. */
  function Finish(s: Scan): Option<seq<Byte>>
    requires ScanOk(s)
  {
    if s.saw && |s.out| + 2 > 16 then None
    else
      var out := if s.saw then s.out + WordBytes(s.val) else s.out;
      if s.colon.Some? then Some(Shifted(out, s.colon.value))
      else if |out| == 16 then Some(out)
      else None
  }

  const START := Scan([], None, 0, false)

  /** Where the loop starts: a leading colon must be the first of two, and is
      skipped. */
  function Skipped(text: string): Option<string> {
    if text == "" || text[0] != ':' then Some(text)
    else if |text| > 1 && text[1] == ':' then Some(text[1..])
    else None
  }

  function ScanAll(rest: string, tok: string, s: Scan): Option<seq<Byte>>
    requires ScanOk(s)
  {
    var r := ScanFrom(rest, tok, s);
    if r.None? then None else Finish(r.value)
  }

  /** `inet_pton6`. */
  function Parse(text: string): Option<seq<Byte>> {
    var start := Skipped(text);
    if start.None? then None else ScanAll(start.value, start.value, START)
  }
}
