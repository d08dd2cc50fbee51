/** Session identifiers: the local time of the run as `YYYYMMDD-HHMMSS`, an
    underscore, and 8 random bytes as 16 lowercase hexadecimal digits. The clock
    reading and the random bytes are parameters. */
module Session {
  import opened Wrappers
  import opened Params
  import Paths

  /** A clock reading, as `datetime.datetime.now()` gives it. */
  datatype DateTime = DateTime(year: int, month: int, day: int, hour: int, minute: int, second: int)

  /** Field ranges of a clock reading; four-digit years only (see the README). */
  predicate ValidDateTime(d: DateTime) {
    1000 <= d.year <= 9999 && 1 <= d.month <= 12 && 1 <= d.day <= 31
    && 0 <= d.hour <= 23 && 0 <= d.minute <= 59 && 0 <= d.second <= 59
  }

  // ------------------------------------------------------- decimal digits

  function Pow10(n: nat): (r: nat)
    ensures r >= 1
  {
    if n == 0 then 1 else 10 * Pow10(n - 1)
  }

  predicate IsDigit(c: char) {
    '0' <= c <= '9'
  }

  function DigitChar(d: int): (c: char)
    requires 0 <= d < 10
    ensures IsDigit(c)
  {
    ('0' as int + d) as char
  }

  /** `n` zero-padded to `width` decimal digits, as `strftime` writes each field. */
  function Decimal(n: nat, width: nat): (s: string)
    requires n < Pow10(width)
    ensures |s| == width && forall k :: 0 <= k < |s| ==> IsDigit(s[k])
  {
    if width == 0 then "" else Decimal(n / 10, width - 1) + [DigitChar(n % 10)]
  }

  function DigitValue(c: char): (d: nat)
    requires IsDigit(c)
    ensures d < 10
  {
    c as int - '0' as int
  }

  /** The number a string of decimal digits spells. */
  function DecimalValue(s: string): nat
    requires forall k :: 0 <= k < |s| ==> IsDigit(s[k])
  {
    if s == [] then 0 else 10 * DecimalValue(s[..|s| - 1]) + DigitValue(s[|s| - 1])
  }

  lemma {:induction false} DecimalRoundTrip(n: nat, width: nat)
    requires n < Pow10(width)
    ensures DecimalValue(Decimal(n, width)) == n
  {
    if width > 0 {
      var s := Decimal(n, width);
      assert s[..|s| - 1] == Decimal(n / 10, width - 1);
      DecimalRoundTrip(n / 10, width - 1);
    }
  }

  /** `now.strftime("%Y%m%d-%H%M%S")`. */
  function Timestamp(d: DateTime): (s: string)
    requires ValidDateTime(d)
    ensures |s| == 15 && s[8] == '-'
    ensures forall k :: 0 <= k < 15 && k != 8 ==> IsDigit(s[k])
  {
    Decimal(d.year, 4) + Decimal(d.month, 2) + Decimal(d.day, 2) + "-"
    + Decimal(d.hour, 2) + Decimal(d.minute, 2) + Decimal(d.second, 2)
  }

  // --------------------------------------------------- hexadecimal digits

  predicate IsLowerHex(c: char) {
    IsDigit(c) || 'a' <= c <= 'f'
  }

  /** The lowercase hexadecimal digit of a nibble. */
  function HexDigit(n: int): (c: char)
    requires 0 <= n < 16
    ensures IsLowerHex(c)
  {
    if n < 10 then ('0' as int + n) as char else ('a' as int + n - 10) as char
  }

  function HexValue(c: char): (v: nat)
    requires IsLowerHex(c)
    ensures v < 16 && HexDigit(v) == c
  {
    if IsDigit(c) then c as int - '0' as int else c as int - 'a' as int + 10
  }

  /** `secrets.token_hex`: two lowercase hexadecimal digits per byte, high nibble first. */
  function TokenHex(bytes: seq<byte>): (s: string)
    ensures |s| == 2 * |bytes| && forall k :: 0 <= k < |s| ==> IsLowerHex(s[k])
  {
    if bytes == [] then ""
    else [HexDigit(bytes[0] as int / 16), HexDigit(bytes[0] as int % 16)] + TokenHex(bytes[1..])
  }

  /** The bytes a string of lowercase hexadecimal digit pairs spells. */
  function ParseHex(s: string): seq<byte>
    requires |s| % 2 == 0 && forall k :: 0 <= k < |s| ==> IsLowerHex(s[k])
  {
    if s == [] then [] else [(16 * HexValue(s[0]) + HexValue(s[1])) as byte] + ParseHex(s[2..])
  }

  lemma {:induction false} HexRoundTrip(bytes: seq<byte>)
    ensures ParseHex(TokenHex(bytes)) == bytes
  {
    if bytes != [] {
      var s := TokenHex(bytes);
      var b := bytes[0] as int;
      assert s[2..] == TokenHex(bytes[1..]);
      assert HexValue(s[0]) == b / 16 && HexValue(s[1]) == b % 16;
      HexRoundTrip(bytes[1..]);
    }
  }

  // ----------------------------------------------------------- session id

  /** The identifier of one run: timestamp, `_`, then `token_hex(8)`. */
  function NewSessionId(now: DateTime, random: seq<byte>): (id: string)
    requires ValidDateTime(now) && |random| == 8
    ensures |id| == 32 && id[8] == '-' && id[15] == '_'
    ensures forall k :: 0 <= k < 15 && k != 8 ==> IsDigit(id[k])
    ensures forall k :: 16 <= k < 32 ==> IsLowerHex(id[k])
  {
    Timestamp(now) + "_" + TokenHex(random)
  }

  predicate WellFormed(id: string) {
    |id| == 32 && id[8] == '-' && id[15] == '_'
    && (forall k :: 0 <= k < 15 && k != 8 ==> IsDigit(id[k]))
    && (forall k :: 16 <= k < 32 ==> IsLowerHex(id[k]))
  }

  /** Reads the clock fields and the random bytes back out of an identifier. */
  function ParseSessionId(id: string): Option<(DateTime, seq<byte>)> {
    if !WellFormed(id) then None
    else
      Some((DateTime(DecimalValue(id[0..4]), DecimalValue(id[4..6]), DecimalValue(id[6..8]),
                     DecimalValue(id[9..11]), DecimalValue(id[11..13]), DecimalValue(id[13..15])),
            ParseHex(id[16..32])))
  }

  /** An identifier determines the clock reading and the random bytes it was made from. */
  lemma ParseNewSessionId(now: DateTime, random: seq<byte>)
    requires ValidDateTime(now) && |random| == 8
    ensures ParseSessionId(NewSessionId(now, random)) == Some((now, random))
  {
    var id := NewSessionId(now, random);
    assert id[0..4] == Decimal(now.year, 4);
    assert id[4..6] == Decimal(now.month, 2);
    assert id[6..8] == Decimal(now.day, 2);
    assert id[9..11] == Decimal(now.hour, 2);
    assert id[11..13] == Decimal(now.minute, 2);
    assert id[13..15] == Decimal(now.second, 2);
    assert id[16..32] == TokenHex(random);
    DecimalRoundTrip(now.year, 4);
    DecimalRoundTrip(now.month, 2);
    DecimalRoundTrip(now.day, 2);
    DecimalRoundTrip(now.hour, 2);
    DecimalRoundTrip(now.minute, 2);
    DecimalRoundTrip(now.second, 2);
    HexRoundTrip(random);
  }

  /** Two runs get the same identifier only from the same clock reading and the same random bytes. */
  lemma SessionIdInjective(now1: DateTime, random1: seq<byte>, now2: DateTime, random2: seq<byte>)
    requires ValidDateTime(now1) && |random1| == 8 && ValidDateTime(now2) && |random2| == 8
    ensures NewSessionId(now1, random1) == NewSessionId(now2, random2) <==> now1 == now2 && random1 == random2
  {
    ParseNewSessionId(now1, random1);
    ParseNewSessionId(now2, random2);
  }

  /** An identifier is usable as one directory name. */
  lemma SessionIdIsComponent(now: DateTime, random: seq<byte>)
    requires ValidDateTime(now) && |random| == 8
    ensures Paths.IsComponent(NewSessionId(now, random))
  {
    var id := NewSessionId(now, random);
    forall k | 0 <= k < |id| ensures id[k] != '/' {
      if k < 15 && k != 8 { assert IsDigit(id[k]); }
      else if k >= 16 { assert IsLowerHex(id[k]); }
    }
  }
}
