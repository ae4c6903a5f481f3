/** The bearer-key check of the webhook: the `Authorization` header must be
    `Bearer ` followed by the configured key. The key comparison first
    compares JavaScript string lengths (UTF-16 code units) and then hands the
    UTF-8 encodings of both keys to a constant-time comparison, which throws
    when their byte lengths differ. */
module WebhookAuth {
  import opened Common

  const BearerPrefix: string := "Bearer "
  const MissingKeyMessage: string := "Missing WEBHOOK_API_KEY env var"
  /** The `RangeError` of `timingSafeEqual` for buffers of different lengths. */
  const ByteLengthMessage: string := "Input buffers must have the same byte length"

  // ---------------------------------------------------------------------
  // UTF-8

  /** The UTF-8 encoding of one character: one byte below U+0080, two below
      U+0800, three below U+10000, four above. */
  function EncodeChar(c: char): (r: seq<byte>)
    ensures 1 <= |r| <= 4
    ensures |r| == 1 <==> c as int < 0x80
    ensures r[0] as int < 0x80 <==> |r| == 1
    ensures 0xC0 <= r[0] as int < 0xE0 <==> |r| == 2
    ensures 0xE0 <= r[0] as int < 0xF0 <==> |r| == 3
    ensures 0xF0 <= r[0] as int < 0xF8 <==> |r| == 4
  {
    var x := c as int;
    if x < 0x80 then [x as byte]
    else if x < 0x800 then [(0xC0 + x / 64) as byte, (0x80 + x % 64) as byte]
    else if x < 0x1_0000 then [(0xE0 + x / 4096) as byte, (0x80 + x / 64 % 64) as byte, (0x80 + x % 64) as byte]
    else [(0xF0 + x / 262144) as byte, (0x80 + x / 4096 % 64) as byte, (0x80 + x / 64 % 64) as byte,
          (0x80 + x % 64) as byte]
  }

  /** The code point one to four UTF-8 bytes stand for. */
  function DecodeChar(b: seq<byte>): int
    requires 1 <= |b| <= 4
  {
    if |b| == 1 then b[0] as int
    else if |b| == 2 then (b[0] as int - 0xC0) * 64 + (b[1] as int - 0x80)
    else if |b| == 3 then (b[0] as int - 0xE0) * 4096 + (b[1] as int - 0x80) * 64 + (b[2] as int - 0x80)
    else (b[0] as int - 0xF0) * 262144 + (b[1] as int - 0x80) * 4096 + (b[2] as int - 0x80) * 64 + (b[3] as int - 0x80)
  }

  /** Decoding a character's bytes gives the character back. */
  lemma DecodeEncodeChar(c: char)
    ensures DecodeChar(EncodeChar(c)) == c as int
  {
    var x := c as int;
    if x >= 0x800 {
      assert x / 64 / 64 == x / 4096;
      if x >= 0x1_0000 {
        assert x / 4096 / 64 == x / 262144;
        assert x / 4096 == 64 * (x / 262144) + x / 4096 % 64;
      }
      assert x / 64 == 64 * (x / 4096) + x / 64 % 64;
    }
  }

  /** `Buffer.from(s, "utf8")`. */
  function Utf8(s: string): (r: seq<byte>)
    ensures |r| >= |s|
  {
    if s == [] then [] else EncodeChar(s[0]) + Utf8(s[1..])
  }

  /** Different texts have different UTF-8 encodings: the first byte of each
      character says how many bytes it has, and those bytes decode to it. */
  lemma {:induction false} Utf8Injective(s: string, t: string)
    requires Utf8(s) == Utf8(t)
    ensures s == t
  {
    if s != [] && t != [] {
      var a, b := EncodeChar(s[0]), EncodeChar(t[0]);
      assert Utf8(s) == a + Utf8(s[1..]);
      assert Utf8(t) == b + Utf8(t[1..]);
      assert a[0] == Utf8(s)[0] == b[0];
      assert |a| == |b|;
      assert a == Utf8(s)[..|a|] == b;
      DecodeEncodeChar(s[0]);
      DecodeEncodeChar(t[0]);
      assert Utf8(s[1..]) == Utf8(s)[|a|..] == Utf8(t[1..]);
      Utf8Injective(s[1..], t[1..]);
    }
  }

  // ---------------------------------------------------------------------
  // The check

  /** `timingSafeEqual` on two byte buffers: throws unless they have the same
      length, otherwise whether they are equal. */
  function TimingSafeEqual(a: seq<byte>, b: seq<byte>): (r: Result<bool>)
    ensures r.Err? <==> |a| != |b|
    ensures r.Err? ==> r.message == ByteLengthMessage
    ensures r.Ok? ==> (r.value <==> a == b)
  {
    if |a| != |b| then Err(ByteLengthMessage) else Ok(a == b)
  }

  /** `validateWebhookKey`: a header that is missing or lacks the `Bearer `
      prefix is refused before the configured key is even looked at; a
      missing or empty key throws; keys of different JavaScript length are
      refused without comparing them; otherwise the UTF-8 bytes are compared
      in constant time. `authorization` is the header, `expectedKey` the
      environment variable. */
  function ValidateWebhookKey(authorization: Option<string>, expectedKey: Option<string>): (r: Result<bool>)
    ensures !IsSet(authorization) || !StartsWith(authorization.value, BearerPrefix) ==> r == Ok(false)
    ensures r.Err? <==>
      && IsSet(authorization) && StartsWith(authorization.value, BearerPrefix)
      && (!IsSet(expectedKey)
          || (var provided := authorization.value[|BearerPrefix|..];
              Utf16Length(provided) == Utf16Length(expectedKey.value) && |Utf8(provided)| != |Utf8(expectedKey.value)|))
    ensures r.Err? ==> r.message == (if IsSet(expectedKey) then ByteLengthMessage else MissingKeyMessage)
    ensures r == Ok(true) <==> IsSet(expectedKey) && authorization == Some(BearerPrefix + expectedKey.value)
  {
    if !IsSet(authorization) || !StartsWith(authorization.value, BearerPrefix) then Ok(false)
    else
      var provided := authorization.value[|BearerPrefix|..];
      assert authorization.value == BearerPrefix + provided;
      if !IsSet(expectedKey) then Err(MissingKeyMessage)
      else if Utf16Length(provided) != Utf16Length(expectedKey.value) then Ok(false)
      else
        var r := TimingSafeEqual(Utf8(provided), Utf8(expectedKey.value));
        if r == Ok(true) then (Utf8Injective(provided, expectedKey.value); r) else r
  }

  /** A key of the right JavaScript length is not enough: "é" and "a" are
      both one code unit long, but two and one bytes in UTF-8, so the
      comparison throws instead of refusing. */
  lemma SameLengthDifferentBytesThrows()
    ensures ValidateWebhookKey(Some(BearerPrefix + "\U{e9}"), Some("a")) == Err(ByteLengthMessage)
  {
    var provided := (BearerPrefix + "\U{e9}")[|BearerPrefix|..];
    assert provided == "\U{e9}";
    assert Utf16Length(provided) == 1 == Utf16Length("a");
    assert |Utf8(provided)| == 2;
    assert |Utf8("a")| == 1;
  }
}
