/**
  The zero-byte counter `countZB` (zcount.c, lines 35-47).

  The stream is an array of bytes read front to back. `getc` yields the next
  byte as a value 0..255, or EOF at the end of the array. The source stores
  that value in a variable of type `char` before comparing it with EOF. On a
  target where `char` is signed (the case modelled here), the byte 0xFF becomes
  -1 and compares equal to EOF, so the scan stops at the first 0xFF byte as if
  the input had ended there. (Where `char` is unsigned, `c` never equals EOF
  and at the end of input the loop keeps reading EOF forever unless the limit
  is reached first; that case is not modelled.)
 */
module Scanner {
  import opened Limits

  /** An octet of the stream, as `getc` delivers it (0..255). */
  newtype byte = x: int | 0 <= x < 256

  /** The value of EOF in <stdio.h>. */
  const EOF: int := -1

  /** The value `getc` returns, once stored in a signed `char` and promoted back to `int`. */
  function AsSignedChar(v: int): (c: int)
    requires v == EOF || 0 <= v < 256
    ensures -128 <= c < 128
    ensures c == EOF <==> v == EOF || v == 0xFF
    ensures c == 0 <==> v == 0
    ensures 0 <= v < 128 ==> c == v
  {
    if v >= 128 then v - 256 else v
  }

  /** Number of 0x00 bytes in `s`. */
  function ZeroCount(s: seq<byte>): (n: nat)
    ensures n <= |s|
  {
    if s == [] then 0
    else (if s[0] == 0 then 1 else 0) + ZeroCount(s[1..])
  }

  /** ZeroCount is the multiplicity of the byte 0x00 in the stream. */
  lemma {:induction false} ZeroCountMultiplicity(s: seq<byte>)
    ensures ZeroCount(s) == multiset(s)[0]
  {
    if s != [] {
      assert s == [s[0]] + s[1..];
      assert multiset(s) == multiset{s[0]} + multiset(s[1..]);
      var head: byte := s[0];
      assert multiset(s)[0] == multiset{head}[0] + multiset(s[1..])[0];
      assert multiset{head}[0] == if head == 0 then 1 else 0;
      ZeroCountMultiplicity(s[1..]);
    }
  }

  /**
    The bytes the scan can see: those before the first 0xFF byte (which reads
    as EOF through a signed `char`), or all of `s` when it holds no 0xFF.
   */
  function ScannedBytes(s: seq<byte>): (r: seq<byte>)
    ensures |r| <= |s| && r == s[..|r|]
    ensures forall j :: 0 <= j < |r| ==> r[j] != 0xFF
    ensures |r| < |s| ==> s[|r|] == 0xFF
  {
    if s == [] || s[0] == 0xFF then []
    else [s[0]] + ScannedBytes(s[1..])
  }

  /** The limit the loop actually compares with: 0 stands for "no limit", i.e. ULONG_MAX. */
  function Cap(upper: ULong): (limit: ULong)
    ensures limit != 0
    ensures upper != 0 ==> limit == upper
  {
    if upper == 0 then ULONG_MAX else upper
  }

  /** What `countZB(fp, upper)` returns for a stream holding `s`. */
  function ScanResult(s: seq<byte>, upper: ULong): (zeros: ULong)
    ensures zeros <= Cap(upper) && zeros <= ZeroCount(ScannedBytes(s))
    ensures zeros == Cap(upper) || zeros == ZeroCount(ScannedBytes(s))
  {
    Min(Cap(upper), ZeroCount(ScannedBytes(s)))
  }

  /**
    countZB: reads the stream until EOF (or a 0xFF byte, see above) or until
    `zeros` has reached the limit, counting 0x00 bytes. As in the source, a
    byte is read before the limit is tested, so the byte after the last
    counted zero is consumed but never counted.
   */
  method CountZB(fp: array<byte>, upper: ULong) returns (zeros: ULong)
    ensures zeros == ScanResult(fp[..], upper)
    ensures upper != 0 ==> zeros <= upper
    ensures zeros <= ZeroCount(ScannedBytes(fp[..]))
    ensures upper == 0 && ZeroCount(ScannedBytes(fp[..])) <= ULONG_MAX ==> zeros == ZeroCount(ScannedBytes(fp[..]))
  {
    var limit := upper;
    if limit == 0 { limit := ULONG_MAX; }
    zeros := 0;
    var pos := 0;
    while true
      invariant 0 <= pos <= fp.Length
      invariant forall j :: 0 <= j < pos ==> fp[j] != 0xFF
      invariant zeros == ZeroCount(fp[..pos]) && zeros <= limit
      decreases fp.Length - pos
    {
      var at := pos;
      // c = getc(fp)
      var got := EOF;
      if pos < fp.Length {
        got := fp[pos] as int;
        pos := pos + 1;
      }
      var c := AsSignedChar(got);
      if !(c != EOF && zeros < limit && zeros < ULONG_MAX) {
        ScanStops(fp[..], at, zeros, limit);
        break;
      }
      ZeroCountSnoc(fp[..at], fp[at]);
      assert fp[..pos] == fp[..at] + [fp[at]];
      if c == 0 {
        zeros := zeros + 1;
      }
    }
  }

  /**
    Where the loop of CountZB stops, after counting `zeros` zero bytes in the
    first `at` bytes without meeting 0xFF: at the limit, at the end of the
    stream, or at a 0xFF byte. In each case the count is the capped count of
    the visible bytes.
   */
  lemma ScanStops(s: seq<byte>, at: nat, zeros: nat, limit: nat)
    requires at <= |s|
    requires forall j :: 0 <= j < at ==> s[j] != 0xFF
    requires zeros == ZeroCount(s[..at]) && zeros <= limit
    requires zeros >= limit || at == |s| || s[at] == 0xFF
    ensures zeros == Min(limit, ZeroCount(ScannedBytes(s)))
  {
    var seen := ScannedBytes(s);
    assert |seen| >= at;
    assert seen[..at] == s[..at];
    ZeroCountPrefix(seen, at);
    if zeros < limit {
      assert |seen| == at;
      assert seen == s[..at];
    }
  }

  /** Adding one byte at the end adds one to the count exactly when the byte is 0x00. */
  lemma {:induction false} ZeroCountSnoc(s: seq<byte>, b: byte)
    ensures ZeroCount(s + [b]) == ZeroCount(s) + (if b == 0 then 1 else 0)
  {
    ZeroCountAppend(s, [b]);
  }

  /** The count of a concatenation is the sum of the counts. */
  lemma {:induction false} ZeroCountAppend(p: seq<byte>, q: seq<byte>)
    ensures ZeroCount(p + q) == ZeroCount(p) + ZeroCount(q)
  {
    if p != [] {
      assert (p + q)[1..] == p[1..] + q;
      ZeroCountAppend(p[1..], q);
    } else {
      assert p + q == q;
    }
  }

  /** A prefix never holds more zero bytes than the whole. */
  lemma ZeroCountPrefix(s: seq<byte>, k: nat)
    requires k <= |s|
    ensures ZeroCount(s[..k]) <= ZeroCount(s)
  {
    assert s == s[..k] + s[k..];
    ZeroCountAppend(s[..k], s[k..]);
  }

  /** A stream without 0xFF bytes is seen in full. */
  lemma {:induction false} ScannedBytesFull(s: seq<byte>)
    requires forall j :: 0 <= j < |s| ==> s[j] != 0xFF
    ensures ScannedBytes(s) == s
  {
    if s != [] {
      ScannedBytesFull(s[1..]);
    }
  }

  /**
    Reading one more byte of a stream free of 0xFF: a non-zero byte leaves the
    result unchanged, a zero byte raises it by one unless the limit is reached.
   */
  lemma ScanExtend(s: seq<byte>, b: byte, upper: ULong)
    requires forall j :: 0 <= j < |s| ==> s[j] != 0xFF
    requires b != 0xFF
    ensures b != 0 ==> ScanResult(s + [b], upper) == ScanResult(s, upper)
    ensures b == 0 ==> ScanResult(s + [b], upper) == Min(Cap(upper), ScanResult(s, upper) + 1)
  {
    ScannedBytesFull(s);
    ScannedBytesFull(s + [b]);
    ZeroCountSnoc(s, b);
  }

  /** A stream of `n` zero bytes holds `n` zero bytes. */
  lemma {:induction false} ZeroCountZeros(n: nat)
    ensures ZeroCount(seq(n, _ => 0 as byte)) == n
    ensures ScannedBytes(seq(n, _ => 0 as byte)) == seq(n, _ => 0 as byte)
  {
    var z := seq(n, _ => 0 as byte);
    ScannedBytesFull(z);
    if n > 0 {
      ZeroCountZeros(n - 1);
      assert z == seq(n - 1, _ => 0 as byte) + [0];
      ZeroCountSnoc(seq(n - 1, _ => 0 as byte), 0);
    }
  }

  /** With a limit `u`, a stream of `u + 5` zero bytes yields exactly `u`. */
  lemma LimitStopsCount(u: ULong)
    requires u != 0
    ensures ScanResult(seq(u + 5, _ => 0 as byte), u) == u
  {
    ZeroCountZeros(u + 5);
  }
}
