/** Standard base64 text (RFC 4648, section 4, with `=` padding), as
    `Buffer.toString("base64")` writes it and `Buffer.from(text, "base64")`
    reads it back. A passkey's public key is stored in this form. */
module Base64 {
  import opened Common

  /** The character of a six-bit value: `A`-`Z`, `a`-`z`, `0`-`9`, `+`, `/`. */
  function CharOf(n: int): (c: char)
    requires 0 <= n < 64
    ensures ValueOf(c) == Some(n)
  {
    if n < 26 then ('A' as int + n) as char
    else if n < 52 then ('a' as int + (n - 26)) as char
    else if n < 62 then ('0' as int + (n - 52)) as char
    else if n == 62 then '+'
    else '/'
  }

  /** The six-bit value of an alphabet character; None for any other
      character (`=` included). */
  function ValueOf(c: char): (r: Option<int>)
    ensures r.Some? ==> 0 <= r.value < 64
  {
    if 'A' <= c <= 'Z' then Some(c as int - 'A' as int)
    else if 'a' <= c <= 'z' then Some(c as int - 'a' as int + 26)
    else if '0' <= c <= '9' then Some(c as int - '0' as int + 52)
    else if c == '+' then Some(62)
    else if c == '/' then Some(63)
    else None
  }

  /** The four characters of a group of three bytes: each six bits of the
      24, most significant first. */
  function EncodeGroup(b0: byte, b1: byte, b2: byte): string {
    [CharOf(b0 as int / 4), CharOf(b0 as int % 4 * 16 + b1 as int / 16), CharOf(b1 as int % 16 * 4 + b2 as int / 64),
     CharOf(b2 as int % 64)]
  }

  /** `Buffer.from(bytes).toString("base64")`: a group of four characters
      per three bytes; a last group of one or two bytes is padded with `=`. */
  function Encode(b: seq<byte>): (s: string)
    ensures |s| == 4 * ((|b| + 2) / 3)
    decreases |b|
  {
    if |b| == 0 then ""
    else if |b| == 1 then [CharOf(b[0] as int / 4), CharOf(b[0] as int % 4 * 16), '=', '=']
    else if |b| == 2 then
      [CharOf(b[0] as int / 4), CharOf(b[0] as int % 4 * 16 + b[1] as int / 16), CharOf(b[1] as int % 16 * 4), '=']
    else EncodeGroup(b[0], b[1], b[2]) + Encode(b[3..])
  }

  /** The bytes of four six-bit values; `count` (one to three) of them are
      kept. */
  function DecodeGroup(a: int, b: int, c: int, d: int, count: nat): seq<byte>
    requires 0 <= a < 64 && 0 <= b < 64 && 0 <= c < 64 && 0 <= d < 64
    requires 1 <= count <= 3
  {
    var all := [(a * 4 + b / 16) as byte, (b % 16 * 16 + c / 4) as byte, (c % 4 * 64 + d) as byte];
    all[..count]
  }

  /** `Buffer.from(text, "base64")` on text of whole four-character groups
      in which only the last group may end in one or two `=`; None for
      anything else. */
  function Decode(s: string): (r: Option<seq<byte>>)
    ensures r.Some? ==> |r.value| <= 3 * (|s| / 4)
    decreases |s|
  {
    if |s| == 0 then Some([])
    else if |s| < 4 || ValueOf(s[0]).None? || ValueOf(s[1]).None? then None
    else
      var a, b := ValueOf(s[0]).value, ValueOf(s[1]).value;
      if |s| == 4 && s[2] == '=' && s[3] == '=' then Some(DecodeGroup(a, b, 0, 0, 1))
      else if ValueOf(s[2]).None? then None
      else
        var c := ValueOf(s[2]).value;
        if |s| == 4 && s[3] == '=' then Some(DecodeGroup(a, b, c, 0, 2))
        else if ValueOf(s[3]).None? then None
        else
          var rest := Decode(s[4..]);
          if rest.None? then None else Some(DecodeGroup(a, b, c, ValueOf(s[3]).value, 3) + rest.value)
  }

  /** The six-bit pieces of three bytes put back together give the bytes. */
  lemma GroupRoundTrip(b0: byte, b1: byte, b2: byte)
    ensures DecodeGroup(b0 as int / 4, b0 as int % 4 * 16 + b1 as int / 16, b1 as int % 16 * 4 + b2 as int / 64,
                        b2 as int % 64, 3) == [b0, b1, b2]
  {
    var x, y, z := b0 as int, b1 as int, b2 as int;
    var p := x % 4 * 16 + y / 16;
    var q := y % 16 * 4 + z / 64;
    assert p / 16 == x % 4 && p % 16 == y / 16;
    assert q / 4 == y % 16 && q % 4 == z / 64;
  }

  /** A last group of one byte reads back. */
  lemma DecodeLastOne(b0: byte)
    ensures Decode(Encode([b0])) == Some([b0])
  {
    var x := b0 as int;
    var s := Encode([b0]);
    assert s == [CharOf(x / 4), CharOf(x % 4 * 16), '=', '='];
    assert (x % 4 * 16) / 16 == x % 4;
    assert DecodeGroup(x / 4, x % 4 * 16, 0, 0, 1) == [(x / 4 * 4 + x % 4) as byte];
  }

  /** A last group of two bytes reads back. */
  lemma DecodeLastTwo(b0: byte, b1: byte)
    ensures Decode(Encode([b0, b1])) == Some([b0, b1])
  {
    var x, y := b0 as int, b1 as int;
    var p := x % 4 * 16 + y / 16;
    assert p / 16 == x % 4 && p % 16 == y / 16;
    var s := Encode([b0, b1]);
    assert s == [CharOf(x / 4), CharOf(p), CharOf(y % 16 * 4), '='];
    assert (y % 16 * 4) / 4 == y % 16;
    assert DecodeGroup(x / 4, p, y % 16 * 4, 0, 2) == [(x / 4 * 4 + x % 4) as byte, (y / 16 * 16 + y % 16) as byte];
  }

  /** A full group in front of base64 text reads back as its three bytes
      in front of what the text reads back as. */
  lemma DecodeFullGroup(b0: byte, b1: byte, b2: byte, rest: string)
    requires Decode(rest).Some?
    ensures Decode(EncodeGroup(b0, b1, b2) + rest) == Some([b0, b1, b2] + Decode(rest).value)
  {
    var s := EncodeGroup(b0, b1, b2) + rest;
    assert s[4..] == rest;
    GroupRoundTrip(b0, b1, b2);
  }

  /** The encoding of three bytes or more is a full group followed by the
      encoding of the rest. */
  lemma EncodeFront(b: seq<byte>)
    requires |b| >= 3
    ensures Encode(b) == EncodeGroup(b[0], b[1], b[2]) + Encode(b[3..])
  {
  }

  /** The first three bytes and the rest make up the whole. */
  lemma SplitFront(b: seq<byte>)
    requires |b| >= 3
    ensures [b[0], b[1], b[2]] + b[3..] == b
  {
  }

  /** Decoding what `Encode` writes gives the bytes back: a public key
      stored as base64 is read back unchanged. */
  lemma {:induction false} DecodeEncode(b: seq<byte>)
    ensures Decode(Encode(b)) == Some(b)
    decreases |b|
  {
    if |b| == 1 {
      assert b == [b[0]];
      DecodeLastOne(b[0]);
    } else if |b| == 2 {
      assert b == [b[0], b[1]];
      DecodeLastTwo(b[0], b[1]);
    } else if |b| >= 3 {
      EncodeFront(b);
      DecodeEncode(b[3..]);
      DecodeFullGroup(b[0], b[1], b[2], Encode(b[3..]));
      SplitFront(b);
    }
  }

  /** Different keys are stored as different text. */
  lemma EncodeInjective(a: seq<byte>, b: seq<byte>)
    requires Encode(a) == Encode(b)
    ensures a == b
  {
    DecodeEncode(a);
    DecodeEncode(b);
  }
}
