/** Repair of Hebrew text sent with left-to-right override marks: the marks
    are removed, the text trimmed, and every Hebrew run reversed in place. A
    run is what the pattern `[֐-׿][֐-׿"'\-_ /\\]*[֐-׿]`
    matches, scanning left to right without overlap. */
module Hebrew {
  import opened Common

  const Override: char := '‭'

  predicate IsHebrew(c: char) {
    '֐' <= c <= '׿'
  }

  /** The characters a run may hold between its two ends. */
  predicate InRunClass(c: char) {
    IsHebrew(c) || c == '"' || c == '\'' || c == '-' || c == '_' || c == ' ' || c == '/' || c == '\\'
  }

  /** `s[a..b]` is a run: at least two characters, Hebrew at both ends and
      only run characters in between. */
  predicate IsRun(s: string, a: int, b: int) {
    0 <= a && a + 2 <= b <= |s| && IsHebrew(s[a]) && IsHebrew(s[b - 1])
    && forall j :: a < j < b - 1 ==> InRunClass(s[j])
  }

  /** The end of the longest stretch of run characters starting at `from`. */
  function ClassEnd(s: string, from: nat): (r: nat)
    requires from <= |s|
    ensures from <= r <= |s|
    ensures forall j :: from <= j < r ==> InRunClass(s[j])
    ensures r < |s| ==> !InRunClass(s[r])
    decreases |s| - from
  {
    if from == |s| || !InRunClass(s[from]) then from else ClassEnd(s, from + 1)
  }

  /** The last Hebrew position in `[lo, hi)`, if any. */
  function LastHebrew(s: string, lo: nat, hi: nat): (r: Option<nat>)
    requires hi <= |s|
    ensures r.None? ==> forall j :: lo <= j < hi ==> !IsHebrew(s[j])
    ensures r.Some? ==> lo <= r.value < hi && IsHebrew(s[r.value])
    ensures r.Some? ==> forall j :: r.value < j < hi ==> !IsHebrew(s[j])
    decreases hi
  {
    if hi <= lo then None
    else if IsHebrew(s[hi - 1]) then Some(hi - 1)
    else LastHebrew(s, lo, hi - 1)
  }

  /** The end of the match starting at `p`: a Hebrew letter, then the greedy
      star over run characters, backing off to the last Hebrew letter. */
  function RunAt(s: string, p: nat): (r: Option<nat>)
    requires p < |s|
    ensures r.Some? ==> IsRun(s, p, r.value)
  {
    if !IsHebrew(s[p]) then None
    else
      match LastHebrew(s, p + 1, ClassEnd(s, p + 1))
      case None => None
      case Some(k) => Some(k + 1)
  }

  /** The match at `p` is the longest run starting there, and there is none
      exactly when no run starts there; a lone Hebrew letter is no run. */
  lemma RunAtIsLongest(s: string, p: nat)
    requires p < |s|
    ensures RunAt(s, p).None? <==> forall e :: !IsRun(s, p, e)
    ensures RunAt(s, p).Some? ==> forall e :: IsRun(s, p, e) ==> e <= RunAt(s, p).value
  {
    forall e | IsRun(s, p, e)
      ensures RunAt(s, p).Some? && e <= RunAt(s, p).value
    {
      var q := ClassEnd(s, p + 1);
      assert e - 1 < q;
      var k := LastHebrew(s, p + 1, q);
      assert k.Some? && e - 1 <= k.value;
    }
  }

  datatype Range = Range(start: nat, end: nat)

  /** The ranges are runs of `s` at or after `from`, in order and disjoint. */
  predicate RunsOf(s: string, rs: seq<Range>, from: nat) {
    (forall k :: 0 <= k < |rs| ==> from <= rs[k].start && IsRun(s, rs[k].start, rs[k].end))
    && forall k :: 0 <= k < |rs| - 1 ==> rs[k].end <= rs[k + 1].start
  }

  /** `matchAll`: every match from `from` on, each search resuming where the
      previous match ended. */
  function Runs(s: string, from: nat): (rs: seq<Range>)
    ensures RunsOf(s, rs, from)
    decreases |s| - from
  {
    if from >= |s| then []
    else
      match RunAt(s, from)
      case Some(e) =>
        var rest := Runs(s, e);
        assert forall k :: 1 <= k < |[Range(from, e)] + rest| ==> ([Range(from, e)] + rest)[k] == rest[k - 1];
        [Range(from, e)] + rest
      case None => Runs(s, from + 1)
  }

  /** No match starts in `[lo, hi)`. */
  predicate NoRunIn(s: string, lo: nat, hi: nat) {
    forall p :: lo <= p < hi && p < |s| ==> RunAt(s, p).None?
  }

  /** No match is skipped: before the first range, between two ranges and
      after the last one, no run starts. */
  lemma {:induction false} RunsLeftmost(s: string, from: nat)
    ensures |Runs(s, from)| == 0 ==> NoRunIn(s, from, |s|)
    ensures |Runs(s, from)| > 0 ==> NoRunIn(s, from, Runs(s, from)[0].start)
    ensures forall k :: 0 <= k < |Runs(s, from)| - 1 ==> NoRunIn(s, Runs(s, from)[k].end, Runs(s, from)[k + 1].start)
    ensures |Runs(s, from)| > 0 ==> NoRunIn(s, Runs(s, from)[|Runs(s, from)| - 1].end, |s|)
    decreases |s| - from
  {
    if from < |s| {
      var rs := Runs(s, from);
      match RunAt(s, from)
      case Some(e) =>
        RunsLeftmost(s, e);
        var rest := Runs(s, e);
        assert rs == [Range(from, e)] + rest;
        assert forall k :: 1 <= k < |rs| ==> rs[k] == rest[k - 1];
      case None =>
        RunsLeftmost(s, from + 1);
        assert rs == Runs(s, from + 1);
    }
  }

  /** The position whose character lands at `i` once every range is reversed. */
  function Reflect(rs: seq<Range>, i: nat): nat {
    if rs == [] then i
    else if rs[0].start <= i < rs[0].end then rs[0].start + rs[0].end - 1 - i
    else Reflect(rs[1..], i)
  }

  /** Reflection stays inside the range it hits and leaves other positions. */
  lemma {:induction false} ReflectAt(s: string, rs: seq<Range>, from: nat, i: nat)
    requires RunsOf(s, rs, from)
    ensures forall k :: 0 <= k < |rs| && rs[k].start <= i < rs[k].end ==>
      Reflect(rs, i) == rs[k].start + rs[k].end - 1 - i
    ensures (forall k :: 0 <= k < |rs| ==> !(rs[k].start <= i < rs[k].end)) ==> Reflect(rs, i) == i
  {
    if rs != [] {
      var tail := rs[1..];
      assert RunsOf(s, tail, from) by {
        forall k | 0 <= k < |tail| - 1 ensures tail[k].end <= tail[k + 1].start {
          assert tail[k] == rs[k + 1] && tail[k + 1] == rs[k + 2];
        }
      }
      ReflectAt(s, tail, from, i);
      forall k | 1 <= k < |rs| && rs[k].start <= i < rs[k].end
        ensures !(rs[0].start <= i < rs[0].end)
      {
        RangesAfter(s, rs, from, 0, k);
      }
    }
  }

  /** Ranges further right start after earlier ones end. */
  lemma {:induction false} RangesAfter(s: string, rs: seq<Range>, from: nat, j: int, k: int)
    requires RunsOf(s, rs, from) && 0 <= j < k < |rs|
    ensures rs[j].end <= rs[k].start
    decreases k - j
  {
    if j + 1 < k {
      RangesAfter(s, rs, from, j + 1, k);
    }
  }

  /** The text with the marks removed, trimmed. */
  function Plain(text: string): (r: string)
    ensures Override !in r
  {
    var stripped := RemoveChar(text, Override);
    TrimKeeps(stripped);
    Trim(stripped)
  }

  /** `text.replace(/‭/gi, "")`. */
  function RemoveChar(s: string, c: char): (r: string)
    ensures c !in r
    ensures |r| <= |s|
    ensures c !in s ==> r == s
  {
    if s == [] then []
    else if s[0] == c then RemoveChar(s[1..], c)
    else [s[0]] + RemoveChar(s[1..], c)
  }

  /** `plain` with every range of `rs` reversed in place, everything else kept. */
  function Unreversed(plain: string, rs: seq<Range>): (r: string)
    requires RunsOf(plain, rs, 0)
    ensures |r| == |plain|
  {
    seq(|plain|, i requires 0 <= i < |plain| => plain[MirrorIndex(plain, rs, i)])
  }

  /** Where the character that lands at `i` comes from. */
  function MirrorIndex(plain: string, rs: seq<Range>, i: nat): (m: nat)
    requires RunsOf(plain, rs, 0) && i < |plain|
    ensures m < |plain|
  {
    ReflectAt(plain, rs, 0, i);
    Reflect(rs, i)
  }

  /** `sanitizeHebrew`: only trimmed when there is no override mark;
      otherwise the marks go, the text is trimmed and every match reversed. */
  function Sanitized(text: string): (r: string) {
    if Override !in text then Trim(text)
    else
      var plain := Plain(text);
      Unreversed(plain, Runs(plain, 0))
  }

  /** `[...s].reverse().join("")`. */
  function Reversed(s: string): (r: string)
    ensures |r| == |s| && forall i :: 0 <= i < |s| ==> r[i] == s[|s| - 1 - i]
  {
    seq(|s|, i requires 0 <= i < |s| => s[|s| - 1 - i])
  }

  /** A position in the gap before range `k` lies in no range. */
  lemma InGap(s: string, rs: seq<Range>, k: int, lo: nat, i: nat)
    requires RunsOf(s, rs, 0) && 0 <= k <= |rs|
    requires k == 0 || rs[k - 1].end <= lo
    requires lo <= i && (k < |rs| ==> i < rs[k].start)
    ensures forall j :: 0 <= j < |rs| ==> !(rs[j].start <= i < rs[j].end)
  {
    forall j | 0 <= j < |rs| ensures !(rs[j].start <= i < rs[j].end) {
      if j < k - 1 {
        RangesAfter(s, rs, 0, j, k - 1);
      } else if k < j {
        RangesAfter(s, rs, 0, k, j);
      }
    }
  }

  /** Outside every range a position keeps its character. */
  lemma UnreversedOutside(plain: string, rs: seq<Range>, i: nat)
    requires RunsOf(plain, rs, 0) && i < |plain|
    requires forall k :: 0 <= k < |rs| ==> !(rs[k].start <= i < rs[k].end)
    ensures Unreversed(plain, rs)[i] == plain[i]
  {
    ReflectAt(plain, rs, 0, i);
  }

  /** Inside range `k` a position receives the mirrored character. */
  lemma UnreversedInRun(plain: string, rs: seq<Range>, k: int, i: nat)
    requires RunsOf(plain, rs, 0) && 0 <= k < |rs| && rs[k].start <= i < rs[k].end
    ensures rs[k].end <= |plain|
    ensures Unreversed(plain, rs)[i] == plain[rs[k].start + rs[k].end - 1 - i]
  {
    ReflectAt(plain, rs, 0, i);
  }

  /** One turn of the loop: the gap before range `k`, then the range reversed. */
  lemma ChunkStep(plain: string, rs: seq<Range>, k: int, idx: nat, out: string)
    requires RunsOf(plain, rs, 0) && 0 <= k < |rs|
    requires k == 0 ==> idx == 0
    requires k > 0 ==> idx == rs[k - 1].end
    requires |out| == idx && forall i :: 0 <= i < idx ==> out[i] == Unreversed(plain, rs)[i]
    ensures idx <= rs[k].start && rs[k].end <= |plain|
    ensures var out' := out + plain[idx..rs[k].start] + Reversed(plain[rs[k].start..rs[k].end]);
      |out'| == rs[k].end && forall i :: 0 <= i < rs[k].end ==> out'[i] == Unreversed(plain, rs)[i]
  {
    if k > 0 {
      RangesAfter(plain, rs, 0, k - 1, k);
    }
    var mid := out + plain[idx..rs[k].start];
    GapChunk(plain, rs, k, idx, out);
    RunChunk(plain, rs, k, mid);
    assert out + plain[idx..rs[k].start] + Reversed(plain[rs[k].start..rs[k].end]) == mid + Reversed(plain[rs[k].start..rs[k].end]);
  }

  /** The gap before range `k` is copied unchanged. */
  lemma GapChunk(plain: string, rs: seq<Range>, k: int, idx: nat, out: string)
    requires RunsOf(plain, rs, 0) && 0 <= k < |rs|
    requires k == 0 ==> idx == 0
    requires k > 0 ==> idx == rs[k - 1].end
    requires idx <= rs[k].start
    requires |out| == idx && forall i :: 0 <= i < idx ==> out[i] == Unreversed(plain, rs)[i]
    ensures var mid := out + plain[idx..rs[k].start];
      |mid| == rs[k].start && forall i :: 0 <= i < |mid| ==> mid[i] == Unreversed(plain, rs)[i]
  {
    var mid := out + plain[idx..rs[k].start];
    forall i | 0 <= i < |mid| ensures mid[i] == Unreversed(plain, rs)[i] {
      if i >= idx {
        assert mid[i] == plain[i];
        InGap(plain, rs, k, idx, i);
        UnreversedOutside(plain, rs, i);
      }
    }
  }

  /** Range `k` is reversed in place. */
  lemma RunChunk(plain: string, rs: seq<Range>, k: int, mid: string)
    requires RunsOf(plain, rs, 0) && 0 <= k < |rs|
    requires |mid| == rs[k].start && forall i :: 0 <= i < |mid| ==> mid[i] == Unreversed(plain, rs)[i]
    ensures var out' := mid + Reversed(plain[rs[k].start..rs[k].end]);
      |out'| == rs[k].end && forall i :: 0 <= i < rs[k].end ==> out'[i] == Unreversed(plain, rs)[i]
  {
    var r := rs[k];
    var out' := mid + Reversed(plain[r.start..r.end]);
    forall i | r.start <= i < r.end ensures out'[i] == Unreversed(plain, rs)[i] {
      assert out'[i] == plain[r.start + r.end - 1 - i];
      UnreversedInRun(plain, rs, k, i);
    }
  }

  /** After the last range the rest of the text is copied unchanged. */
  lemma TailStep(plain: string, rs: seq<Range>, idx: nat, out: string)
    requires RunsOf(plain, rs, 0)
    requires |rs| == 0 ==> idx == 0
    requires |rs| > 0 ==> idx == rs[|rs| - 1].end
    requires |out| == idx && forall i :: 0 <= i < idx ==> out[i] == Unreversed(plain, rs)[i]
    ensures idx <= |plain| && out + plain[idx..] == Unreversed(plain, rs)
  {
    var out' := out + plain[idx..];
    forall i | idx <= i < |plain| ensures out'[i] == Unreversed(plain, rs)[i] {
      InGap(plain, rs, |rs|, idx, i);
      UnreversedOutside(plain, rs, i);
    }
  }

  /** `sanitizeHebrew`: text without override marks is only trimmed;
      otherwise the marks are removed, the text trimmed, and the pieces between
      and inside the matches pushed in order, each match reversed. */
  method SanitizeHebrew(text: string) returns (r: string)
    ensures r == Sanitized(text)
  {
    if Override !in text {
      return Trim(text);
    }
    var plain := Trim(RemoveChar(text, Override));
    var ranges := Runs(plain, 0);
    r := Rebuild(plain, ranges);
  }

  /** The loop over the matches of `plain`, pushing the gap before each match
      and the match reversed, then the rest of the text. */
  method Rebuild(plain: string, ranges: seq<Range>) returns (r: string)
    requires RunsOf(plain, ranges, 0)
    ensures r == Unreversed(plain, ranges)
  {
    var out, idx := "", 0;
    for k := 0 to |ranges|
      invariant k == 0 ==> idx == 0
      invariant k > 0 ==> idx == ranges[k - 1].end
      invariant |out| == idx && forall i :: 0 <= i < idx ==> out[i] == Unreversed(plain, ranges)[i]
    {
      ChunkStep(plain, ranges, k, idx, out);
      out := out + plain[idx..ranges[k].start] + Reversed(plain[ranges[k].start..ranges[k].end]);
      idx := ranges[k].end;
    }
    TailStep(plain, ranges, idx, out);
    r := out + plain[idx..];
  }

  /** The result holds no override mark. */
  lemma SanitizedNoMarks(text: string)
    ensures Override !in Sanitized(text)
  {
    if Override !in text {
      TrimKeeps(text);
    } else {
      var plain := Plain(text);
      var rs := Runs(plain, 0);
      var r := Unreversed(plain, rs);
      forall i | 0 <= i < |r| ensures r[i] != Override {
        assert plain[MirrorIndex(plain, rs, i)] in plain;
      }
    }
  }

  /** The result is trimmed: a range at either end starts and ends with a
      Hebrew letter, which is no whitespace. */
  lemma SanitizedTrimmed(text: string)
    ensures IsTrimmed(Sanitized(text))
  {
    if Override in text {
      var plain := Plain(text);
      UnreversedTrimmed(plain, Runs(plain, 0));
    }
  }

  /** Reversing the ranges of a trimmed text leaves it trimmed. */
  lemma UnreversedTrimmed(plain: string, rs: seq<Range>)
    requires RunsOf(plain, rs, 0) && IsTrimmed(plain)
    ensures IsTrimmed(Unreversed(plain, rs))
  {
    if |plain| > 0 {
      EndIsHebrewOrPlain(plain, rs, 0);
      EndIsHebrewOrPlain(plain, rs, |plain| - 1);
    }
  }

  /** The first and the last position receive a Hebrew letter, or keep their own character. */
  lemma EndIsHebrewOrPlain(plain: string, rs: seq<Range>, i: nat)
    requires RunsOf(plain, rs, 0) && i < |plain| && (i == 0 || i == |plain| - 1)
    ensures IsHebrew(Unreversed(plain, rs)[i]) || Unreversed(plain, rs)[i] == plain[i]
  {
    if k :| 0 <= k < |rs| && rs[k].start <= i < rs[k].end {
      UnreversedInRun(plain, rs, k, i);
      if i == 0 {
        assert rs[k].start == 0;
      } else {
        assert rs[k].end == |plain|;
      }
    } else {
      UnreversedOutside(plain, rs, i);
    }
  }

  /** Sanitizing twice is sanitizing once. */
  lemma SanitizedIdempotent(text: string)
    ensures Sanitized(Sanitized(text)) == Sanitized(text)
  {
    SanitizedNoMarks(text);
    SanitizedTrimmed(text);
    TrimOfTrimmed(Sanitized(text));
  }
}
