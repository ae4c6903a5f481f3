/** Value types and string helpers shared by every module of the model.
    Strings are sequences of Unicode scalar values; the JavaScript string
    operations the application relies on (`trim`, `toLowerCase`, `includes`,
    `startsWith`, number printing) are written out here once. */
module Common {

  /** A value that may be absent (`null` / `undefined` in the application). */
  datatype Option<+T> = None | Some(value: T) {
    function GetOr(default: T): T {
      if Some? then value else default
    }
  }

  /** The outcome of an operation that can throw: the error carries the message. */
  datatype Result<+T> = Ok(value: T) | Err(message: string)

  /** An element of a `Buffer` / `Uint8Array`. */
  newtype byte = x: int | 0 <= x < 256

  // ---------------------------------------------------------------------
  // Characters and case

  /** A JavaScript string is truthy when it is not empty; an unset variable is falsy. */
  predicate IsSet(v: Option<string>) {
    v.Some? && v.value != ""
  }

  /** How far `toLowerCase` moves a capital letter whose lowercase is one
      character at a fixed distance: 32 for ASCII `A`-`Z`, the Latin-1
      capitals `À`-`Þ` (not the sign `×`) and the Cyrillic capitals `А`-`Я`,
      80 for the Cyrillic capitals `Ѐ`-`Џ`, and 0 for every other character. */
  function CaseOffset(c: char): nat {
    if ('A' <= c <= 'Z') || ('\U{C0}' <= c <= '\U{DE}' && c != '\U{D7}') || ('\U{410}' <= c <= '\U{42F}') then 32
    else if '\U{400}' <= c <= '\U{40F}' then 80
    else 0
  }

  predicate IsUpper(c: char) {
    CaseOffset(c) != 0
  }

  /** `toLowerCase` on one character: a capital becomes its small letter,
      and a small letter is no capital. */
  function LowerChar(c: char): (r: char)
    ensures !IsUpper(r)
    ensures r as int == c as int + CaseOffset(c)
  {
    (c as int + CaseOffset(c)) as char
  }

  /** `s.toLowerCase()`: same length, each character lowered. */
  function Lower(s: string): (r: string)
    ensures |r| == |s|
    ensures forall i :: 0 <= i < |s| ==> r[i] == LowerChar(s[i])
  {
    if s == [] then [] else [LowerChar(s[0])] + Lower(s[1..])
  }

  lemma LowerIdempotent(s: string)
    ensures Lower(Lower(s)) == Lower(s)
  {
  }

  // ---------------------------------------------------------------------
  // Whitespace and trim

  /** The characters `String.prototype.trim` removes: ECMAScript WhiteSpace
      and LineTerminator code points. */
  predicate IsJsWhitespace(c: char) {
    c == '\t' || c == '\n' || c == '\U{B}' || c == '\U{C}' || c == '\r' || c == ' '
    || c == '\U{A0}' || c == '\U{1680}' || ('\U{2000}' <= c <= '\U{200A}')
    || c == '\U{2028}' || c == '\U{2029}' || c == '\U{202F}' || c == '\U{205F}'
    || c == '\U{3000}' || c == '\U{FEFF}'
  }

  /** Neither end of `s` is whitespace. */
  predicate IsTrimmed(s: string) {
    s == [] || (!IsJsWhitespace(s[0]) && !IsJsWhitespace(s[|s| - 1]))
  }

  /** Number of whitespace characters at the start of `s`. */
  function LeadingSpace(s: string): (n: nat)
    ensures n <= |s|
    ensures forall k :: 0 <= k < n ==> IsJsWhitespace(s[k])
    ensures n < |s| ==> !IsJsWhitespace(s[n])
  {
    if s == [] || !IsJsWhitespace(s[0]) then 0 else 1 + LeadingSpace(s[1..])
  }

  /** Number of whitespace characters at the end of `s`. */
  function TrailingSpace(s: string): (n: nat)
    ensures n <= |s|
    ensures forall k :: |s| - n <= k < |s| ==> IsJsWhitespace(s[k])
    ensures n < |s| ==> !IsJsWhitespace(s[|s| - 1 - n])
  {
    if s == [] || !IsJsWhitespace(s[|s| - 1]) then 0 else 1 + TrailingSpace(s[..|s| - 1])
  }

  /** `s.trim()`: the longest middle part of `s` with whitespace at neither end. */
  function Trim(s: string): (r: string)
    ensures IsTrimmed(r)
    ensures |r| <= |s|
    ensures (forall k :: 0 <= k < |s| ==> !IsJsWhitespace(s[k])) ==> r == s
  {
    var t := s[LeadingSpace(s)..];
    t[..|t| - TrailingSpace(t)]
  }

  lemma TrimOfTrimmed(s: string)
    requires IsTrimmed(s)
    ensures Trim(s) == s
  {
    if s != [] {
      assert LeadingSpace(s) == 0;
      assert TrailingSpace(s) == 0;
    }
  }

  /** Trimming only drops characters. */
  lemma TrimKeeps(s: string)
    ensures forall c :: c in Trim(s) ==> c in s
  {
    var t := s[LeadingSpace(s)..];
    assert forall c :: c in t ==> c in s;
    assert forall c :: c in t[..|t| - TrailingSpace(t)] ==> c in t;
  }

  lemma TrimIdempotent(s: string)
    ensures Trim(Trim(s)) == Trim(s)
  {
    TrimOfTrimmed(Trim(s));
  }

  /** `s.length` in JavaScript: characters outside the Basic Multilingual
      Plane take two UTF-16 code units. */
  function Utf16Length(s: string): (n: nat)
    ensures |s| <= n <= 2 * |s|
  {
    if s == [] then 0 else (if s[0] as int < 0x1_0000 then 1 else 2) + Utf16Length(s[1..])
  }

  /** `Math.abs` on a whole number of agorot. */
  function Abs(x: int): (r: nat)
    ensures r == x || r == -x
  {
    if x < 0 then -x else x
  }

  // ---------------------------------------------------------------------
  // Substrings and prefixes

  /** `s.includes(sub)`. */
  predicate Contains(s: string, sub: string) {
    exists i | 0 <= i <= |s| :: sub <= s[i..]
  }

  /** `s.startsWith(p)`. */
  predicate StartsWith(s: string, p: string) {
    p <= s
  }

  lemma ContainsItself(s: string)
    ensures Contains(s, s) && Contains(s, [])
  {
    assert s <= s[0..];
  }

  /** `parts.join(sep)`. */
  function Join(parts: seq<string>, sep: string): (r: string)
    ensures parts == [] ==> r == []
    ensures |parts| == 1 ==> r == parts[0]
  {
    if parts == [] then []
    else if |parts| == 1 then parts[0]
    else parts[0] + sep + Join(parts[1..], sep)
  }

  // ---------------------------------------------------------------------
  // Decimal numbers

  predicate IsDigit(c: char) {
    '0' <= c <= '9'
  }

  predicate AllDigits(s: string) {
    forall i :: 0 <= i < |s| ==> IsDigit(s[i])
  }

  function DigitChar(d: nat): (c: char)
    requires d < 10
    ensures IsDigit(c) && c as int - '0' as int == d
  {
    ('0' as int + d) as char
  }

  /** `String(n)` for a non-negative integer: decimal digits, no leading zero. */
  function NatToString(n: nat): (r: string)
    ensures 1 <= |r|
    ensures AllDigits(r)
    ensures |r| > 1 ==> r[0] != '0'
    decreases n
  {
    if n < 10 then [DigitChar(n)] else NatToString(n / 10) + [DigitChar(n % 10)]
  }

  /** `String(i)` for any integer. */
  function IntToString(i: int): (r: string)
    ensures i < 0 <==> (|r| > 0 && r[0] == '-')
  {
    if i < 0 then "-" + NatToString(-i) else NatToString(i)
  }

  /** The value of a string of decimal digits (what `Number` gives for it). */
  function DigitsValue(s: string): nat
    requires AllDigits(s)
  {
    if s == [] then 0 else DigitsValue(s[..|s| - 1]) * 10 + (s[|s| - 1] as int - '0' as int)
  }

  /** Printing and reading back a natural number are inverse. */
  lemma {:induction false} DigitsValueOfNatToString(n: nat)
    ensures DigitsValue(NatToString(n)) == n
    decreases n
  {
    if n >= 10 {
      var s := NatToString(n);
      assert s[..|s| - 1] == NatToString(n / 10);
      DigitsValueOfNatToString(n / 10);
    }
  }

  lemma NatToStringInjective(a: nat, b: nat)
    requires NatToString(a) == NatToString(b)
    ensures a == b
  {
    DigitsValueOfNatToString(a);
    DigitsValueOfNatToString(b);
  }

  /** Four-digit numbers print as four characters. */
  lemma {:induction false} NatToStringLength4(n: nat)
    requires 1000 <= n <= 9999
    ensures |NatToString(n)| == 4
  {
    assert |NatToString(n / 1000)| == 1;
    assert NatToString(n / 100) == NatToString(n / 1000) + [DigitChar((n / 100) % 10)];
    assert NatToString(n / 10) == NatToString(n / 100) + [DigitChar((n / 10) % 10)];
  }

  /** `String(x).padStart(2, "0")`. */
  function PadStart2(s: string): (r: string)
    ensures |s| >= 2 ==> r == s
    ensures |s| < 2 ==> |r| == 2
  {
    if |s| >= 2 then s else if |s| == 1 then "0" + s else "00"
  }

  /** Sum of a sequence of integers. */
  function Sum(xs: seq<int>): int {
    if xs == [] then 0 else Sum(xs[..|xs| - 1]) + xs[|xs| - 1]
  }

  lemma SumAppend(xs: seq<int>, ys: seq<int>)
    ensures Sum(xs + ys) == Sum(xs) + Sum(ys)
    decreases |ys|
  {
    if ys != [] {
      assert (xs + ys)[..|xs + ys| - 1] == xs + ys[..|ys| - 1];
      SumAppend(xs, ys[..|ys| - 1]);
    } else {
      assert xs + ys == xs;
    }
  }

  // ---------------------------------------------------------------------
  // Batches

  function Min(a: int, b: int): int {
    if a <= b then a else b
  }

  /** The concatenation of a sequence of sequences. */
  function Flatten<T>(parts: seq<seq<T>>): seq<T> {
    if parts == [] then [] else Flatten(parts[..|parts| - 1]) + parts[|parts| - 1]
  }

  /** `xs.slice(i, i + size)`: at most `size` elements from index `i` on. */
  function Slice<T>(xs: seq<T>, i: nat, size: nat): (r: seq<T>)
    ensures |r| <= size
    ensures i < |xs| ==> |r| == Min(size, |xs| - i)
    ensures i < |xs| ==> r == xs[i..Min(i + size, |xs|)]
  {
    if i >= |xs| then [] else xs[i..Min(i + size, |xs|)]
  }

  /** Every part is non-empty and holds at most `size` elements, and every part
      but the last holds exactly `size`. */
  predicate Batched<T>(parts: seq<seq<T>>, size: nat) {
    forall k :: 0 <= k < |parts| ==> 0 < |parts[k]| <= size && (k < |parts| - 1 ==> |parts[k]| == size)
  }

  /** The loop `for (i = 0; i < xs.length; i += size) xs.slice(i, i + size)`
      takes one more slice: the parts taken so far cover the next prefix, and
      they remain batches of `size`. */
  lemma {:induction false} BatchStep<T>(xs: seq<T>, parts: seq<seq<T>>, i: nat, size: nat)
    requires i < |xs| && size > 0
    requires Flatten(parts) == xs[..i] && i == |parts| * size
    requires Batched(parts, size)
    ensures Flatten(parts + [Slice(xs, i, size)]) == xs[..Min(i + size, |xs|)]
    ensures Batched(parts + [Slice(xs, i, size)], size)
    ensures i + size == |parts + [Slice(xs, i, size)]| * size
  {
    var b := Slice(xs, i, size);
    assert (parts + [b])[..|parts|] == parts;
    assert xs[..Min(i + size, |xs|)] == xs[..i] + b;
    if |parts| > 0 {
      assert |parts[|parts| - 1]| == size by {
        assert |Flatten(parts)| == i;
        FlattenLength(parts, size);
      }
    }
  }

  /** All parts but the last are full, so the covered length is at least
      `size` for every full part. */
  lemma {:induction false} FlattenLength<T>(parts: seq<seq<T>>, size: nat)
    requires |parts| > 0 && Batched(parts, size)
    ensures |Flatten(parts)| == (|parts| - 1) * size + |parts[|parts| - 1]|
  {
    var init := parts[..|parts| - 1];
    if |init| > 0 {
      assert Batched(init, size) by {
        forall k | 0 <= k < |init| ensures 0 < |init[k]| <= size && (k < |init| - 1 ==> |init[k]| == size) {
          assert init[k] == parts[k];
        }
      }
      FlattenLength(init, size);
      assert init[|init| - 1] == parts[|parts| - 2];
    }
  }
}
