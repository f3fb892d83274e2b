// Strings as Python sees them: whitespace stripping, joining and decimal numbers.
module Text {

  /** The characters that `str.strip` removes. */
  predicate IsSpace(c: char) {
    || '\t' <= c <= '\r' || '\U{1c}' <= c <= ' ' || c == '\U{85}' || c == '\U{a0}' || c == '\U{1680}'
    || '\U{2000}' <= c <= '\U{200a}' || c == '\U{2028}' || c == '\U{2029}' || c == '\U{202f}' || c == '\U{205f}'
    || c == '\U{3000}'
  }

  predicate IsBlank(s: string) {
    forall i :: 0 <= i < |s| ==> IsSpace(s[i])
  }

  /** Neither end of `s` is whitespace. */
  predicate IsTrimmed(s: string) {
    s != "" ==> !IsSpace(s[0]) && !IsSpace(s[|s| - 1])
  }

  /** The first position from `at` on that is not whitespace. */
  function FirstKept(s: string, at: nat): nat
    requires at <= |s|
    decreases |s| - at
  {
    if at == |s| || !IsSpace(s[at]) then at else FirstKept(s, at + 1)
  }

  /** The position after the last character before `end` that is not whitespace. */
  function LastKept(s: string, end: nat): nat
    requires end <= |s|
  {
    if end == 0 || !IsSpace(s[end - 1]) then end else LastKept(s, end - 1)
  }

  lemma {:induction false} FirstKeptShape(s: string, at: nat)
    requires at <= |s|
    ensures at <= FirstKept(s, at) <= |s| && IsBlank(s[at..FirstKept(s, at)])
    ensures FirstKept(s, at) < |s| ==> !IsSpace(s[FirstKept(s, at)])
    decreases |s| - at
  {
    if at < |s| && IsSpace(s[at]) {
      FirstKeptShape(s, at + 1);
      assert s[at..FirstKept(s, at)] == [s[at]] + s[at + 1..FirstKept(s, at)];
    }
  }

  lemma {:induction false} LastKeptShape(s: string, end: nat)
    requires end <= |s|
    ensures LastKept(s, end) <= end && IsBlank(s[LastKept(s, end)..end])
    ensures LastKept(s, end) > 0 ==> !IsSpace(s[LastKept(s, end) - 1])
  {
    if end > 0 && IsSpace(s[end - 1]) {
      LastKeptShape(s, end - 1);
      assert s[LastKept(s, end)..end] == s[LastKept(s, end)..end - 1] + [s[end - 1]];
    }
  }

  function StripLeft(s: string): string {
    FirstKeptShape(s, 0);
    s[FirstKept(s, 0)..]
  }

  function StripRight(s: string): string {
    LastKeptShape(s, |s|);
    s[..LastKept(s, |s|)]
  }

  function Strip(s: string): string {
    StripRight(StripLeft(s))
  }

  /** Stripping cuts a whitespace prefix and a whitespace suffix, and nothing else is left to cut. */
  lemma StripCutsWhitespaceEnds(s: string) returns (pre: string, post: string)
    ensures s == pre + Strip(s) + post && IsBlank(pre) && IsBlank(post)
    ensures IsTrimmed(Strip(s))
  {
    FirstKeptShape(s, 0);
    var left := StripLeft(s);
    LastKeptShape(left, |left|);
    pre, post := s[..FirstKept(s, 0)], left[LastKept(left, |left|)..];
    assert pre == s[0..FirstKept(s, 0)] && post == left[LastKept(left, |left|)..|left|];
    assert left == Strip(s) + post;
    if Strip(s) != "" {
      assert Strip(s)[0] == left[0] == s[FirstKept(s, 0)];
    }
  }

  lemma {:induction false} FirstKeptAt(s: string, at: nat, kept: nat)
    requires at <= kept <= |s| && (kept < |s| ==> !IsSpace(s[kept]))
    requires forall i :: at <= i < kept ==> IsSpace(s[i])
    ensures FirstKept(s, at) == kept
    decreases kept - at
  {
    if at < kept {
      FirstKeptAt(s, at + 1, kept);
    }
  }

  lemma {:induction false} LastKeptAt(s: string, kept: nat, end: nat)
    requires kept <= end <= |s| && (kept > 0 ==> !IsSpace(s[kept - 1]))
    requires forall i :: kept <= i < end ==> IsSpace(s[i])
    ensures LastKept(s, end) == kept
  {
    if kept < end {
      LastKeptAt(s, kept, end - 1);
    }
  }

  /** What is left after stripping is determined by the text: any way to cut blank ends down to a
      trimmed text that is not empty gives the same text. */
  lemma StripIsUnique(pre: string, mid: string, post: string)
    requires IsBlank(pre) && IsBlank(post) && IsTrimmed(mid) && mid != ""
    ensures Strip(pre + mid + post) == mid
  {
    var s := pre + mid + post;
    assert s[|pre|] == mid[0];
    assert forall i :: 0 <= i < |pre| ==> s[i] == pre[i];
    FirstKeptAt(s, 0, |pre|);
    var left := mid + post;
    assert StripLeft(s) == left;
    assert left[|mid| - 1] == mid[|mid| - 1];
    assert forall i :: |mid| <= i < |left| ==> left[i] == post[i - |mid|];
    LastKeptAt(left, |mid|, |left|);
  }

  function Join(parts: seq<string>, separator: string): string {
    if |parts| == 0 then ""
    else if |parts| == 1 then parts[0]
    else Join(parts[..|parts| - 1], separator) + separator + parts[|parts| - 1]
  }

  predicate IsDigit(c: char) {
    '0' <= c <= '9'
  }

  /** `str(n)` */
  function Decimal(n: nat): (s: string)
    ensures s != "" && forall i :: 0 <= i < |s| ==> IsDigit(s[i])
  {
    var last := '0' + (n % 10) as char;
    if n < 10 then [last] else Decimal(n / 10) + [last]
  }

  /** `int(s)` for a string of digits */
  function ParseDecimal(s: string): nat
    requires forall i :: 0 <= i < |s| ==> IsDigit(s[i])
  {
    if s == "" then 0
    else
      assert IsDigit(s[|s| - 1]);
      10 * ParseDecimal(s[..|s| - 1]) + (s[|s| - 1] as int - '0' as int)
  }

  lemma {:induction false} DecimalRoundTrip(n: nat)
    ensures ParseDecimal(Decimal(n)) == n
  {
    var s := Decimal(n);
    if n >= 10 {
      DecimalRoundTrip(n / 10);
      assert s[..|s| - 1] == Decimal(n / 10);
    }
  }

  lemma DecimalInjective(m: nat, n: nat)
    requires Decimal(m) == Decimal(n)
    ensures m == n
  {
    DecimalRoundTrip(m);
    DecimalRoundTrip(n);
  }
}
