/**
 * The string operations the server (Python `str`, `%` formatting) and the
 * browser (JavaScript `String.prototype.split`) apply to names, paths and
 * form fields.
 */
module Text {
  import opened Results

  // ---------------------------------------------------------------------------
  // Python `str.strip` / `str.rstrip`
  // ---------------------------------------------------------------------------

  /** The characters for which Python's `str.isspace()` holds: what `str.strip()` removes. */
  predicate IsSpace(c: char) {
    c == ' ' || ('\t' <= c <= '\r') || ('\U{1c}' <= c <= '\U{1f}') || c == '\U{85}' || c == '\U{a0}'
    || c == '\U{1680}' || ('\U{2000}' <= c <= '\U{200a}') || c == '\U{2028}' || c == '\U{2029}'
    || c == '\U{202f}' || c == '\U{205f}' || c == '\U{3000}'
  }

  predicate IsSlash(c: char) { c == '/' }

  /** `s.lstrip(...)`: drops the longest prefix whose characters satisfy `drop`. */
  function TrimLeft(s: string, drop: char -> bool): (r: string)
    ensures |r| <= |s| && r == s[|s| - |r|..]
    ensures forall i :: 0 <= i < |s| - |r| ==> drop(s[i])
    ensures r == [] || !drop(r[0])
  {
    if s != [] && drop(s[0]) then TrimLeft(s[1..], drop) else s
  }

  /** `s.rstrip(...)`: drops the longest suffix whose characters satisfy `drop`. */
  function TrimRight(s: string, drop: char -> bool): (r: string)
    ensures |r| <= |s| && r == s[..|r|]
    ensures forall i :: |r| <= i < |s| ==> drop(s[i])
    ensures r == [] || !drop(r[|r| - 1])
  {
    if s != [] && drop(s[|s| - 1]) then TrimRight(s[..|s| - 1], drop) else s
  }

  /**
   * `r` is `s` with the whitespace before position `k` and after `r` removed,
   * and neither end of `r` is whitespace.
   */
  predicate StrippedAt(r: string, s: string, k: nat) {
    k + |r| <= |s| && r == s[k..k + |r|] &&
    (forall i :: 0 <= i < k ==> IsSpace(s[i])) &&
    (forall i :: k + |r| <= i < |s| ==> IsSpace(s[i])) &&
    (r == [] || (!IsSpace(r[0]) && !IsSpace(r[|r| - 1])))
  }

  /** Trimming whitespace on the left, then on the right, leaves the middle of `s`. */
  lemma TrimBothSides(s: string)
    ensures StrippedAt(TrimRight(TrimLeft(s, IsSpace), IsSpace), s, |s| - |TrimLeft(s, IsSpace)|)
  {
    var t := TrimLeft(s, IsSpace);
    var r := TrimRight(t, IsSpace);
    var k := |s| - |t|;
    assert r == s[k..k + |r|];
    forall i | k + |r| <= i < |s| ensures IsSpace(s[i]) {
      assert s[i] == t[i - k];
    }
    assert r != [] ==> r[0] == t[0];
  }

  /** Python's `s.strip()` with no argument. */
  function Strip(s: string): (r: string)
    ensures exists k :: StrippedAt(r, s, k)
  {
    TrimBothSides(s);
    TrimRight(TrimLeft(s, IsSpace), IsSpace)
  }

  /** `s.strip()` is truthy exactly when `s` has a character that is not whitespace. */
  lemma StripEmptyIffBlank(s: string)
    ensures Strip(s) == [] <==> forall i :: 0 <= i < |s| ==> IsSpace(s[i])
  {
  }

  // ---------------------------------------------------------------------------
  // JavaScript `split(sep)[0]` and `split(sep).pop()`
  // ---------------------------------------------------------------------------

  /** `s.split(sep).pop()`: the text after the last `sep`, or all of `s` when it has none. */
  function AfterLast(s: string, sep: char): (r: string)
    ensures sep !in r
    ensures |r| <= |s| && r == s[|s| - |r|..]
    ensures |r| == |s| || s[|s| - |r| - 1] == sep
  {
    if s == [] || s[|s| - 1] == sep then [] else AfterLast(s[..|s| - 1], sep) + [s[|s| - 1]]
  }

  /** `s.split(sep)[0]`: the text before the first `sep`, or all of `s` when it has none. */
  function BeforeFirst(s: string, sep: char): (r: string)
    ensures sep !in r
    ensures |r| <= |s| && r == s[..|r|]
    ensures |r| == |s| || s[|r|] == sep
  {
    if s == [] || s[0] == sep then [] else [s[0]] + BeforeFirst(s[1..], sep)
  }

  /** The last segment of `head + [sep] + tail` is `tail` when `tail` has no `sep`. */
  lemma {:induction false} AfterLastOfJoin(head: string, sep: char, tail: string)
    requires sep !in tail
    ensures AfterLast(head + [sep] + tail, sep) == tail
  {
    if tail == [] {
      assert (head + [sep] + tail)[|head|] == sep;
    } else {
      var s := head + [sep] + tail;
      assert s[..|s| - 1] == head + [sep] + tail[..|tail| - 1];
      assert tail[|tail| - 1] in tail;
      AfterLastOfJoin(head, sep, tail[..|tail| - 1]);
      assert tail[..|tail| - 1] + [tail[|tail| - 1]] == tail;
    }
  }

  /** The first segment of `head + [sep] + tail` is `head` when `head` has no `sep`. */
  lemma {:induction false} BeforeFirstOfJoin(head: string, sep: char, tail: string)
    requires sep !in head
    ensures BeforeFirst(head + [sep] + tail, sep) == head
  {
    if head != [] {
      var s := head + [sep] + tail;
      assert s[0] == head[0] && head[0] in head;
      assert s[1..] == head[1..] + [sep] + tail;
      BeforeFirstOfJoin(head[1..], sep, tail);
      assert [head[0]] + head[1..] == head;
    }
  }

  // ---------------------------------------------------------------------------
  // Decimal notation: Python `str(n)` and `int(s)` for non-negative integers
  // ---------------------------------------------------------------------------

  predicate IsDigit(c: char) { '0' <= c <= '9' }

  function DigitChar(d: nat): (c: char)
    requires d < 10
    ensures IsDigit(c) && DigitValue(c) == d
  {
    ('0' as int + d) as char
  }

  /** Python's `str(n)` for `n >= 0`: at least one digit, no leading zero. */
  function Decimal(n: nat): (r: string)
    ensures 1 <= |r|
    ensures forall i :: 0 <= i < |r| ==> IsDigit(r[i])
    ensures |r| > 1 ==> r[0] != '0'
  {
    if n < 10 then [DigitChar(n)] else Decimal(n / 10) + [DigitChar(n % 10)]
  }

  function DigitValue(c: char): nat
    requires IsDigit(c)
  {
    c as int - '0' as int
  }

  /** Reads a string of decimal digits back as a number. */
  function DecimalValue(s: string): nat
    requires forall i :: 0 <= i < |s| ==> IsDigit(s[i])
  {
    if s == [] then 0 else 10 * DecimalValue(s[..|s| - 1]) + DigitValue(s[|s| - 1])
  }

  lemma {:induction false} DecimalRoundTrip(n: nat)
    ensures DecimalValue(Decimal(n)) == n
  {
    if n >= 10 {
      var s := Decimal(n);
      assert s[..|s| - 1] == Decimal(n / 10);
      DecimalRoundTrip(n / 10);
    }
  }

  // ---------------------------------------------------------------------------
  // Hexadecimal notation: Python `'%0Nx' % v` and a case-insensitive reader
  // ---------------------------------------------------------------------------

  function Pow16(n: nat): (p: nat)
    ensures p >= 1
  {
    if n == 0 then 1 else 16 * Pow16(n - 1)
  }

  predicate IsLowerHex(c: char) { '0' <= c <= '9' || 'a' <= c <= 'f' }

  function HexDigit(d: nat): (c: char)
    requires d < 16
    ensures IsLowerHex(c)
  {
    if d < 10 then ('0' as int + d) as char else ('a' as int + d - 10) as char
  }

  /** One hexadecimal digit of either case, as read by a case-insensitive parser. */
  function HexDigitValue(c: char): (d: Option<nat>)
    ensures d.Some? ==> d.value < 16
  {
    if '0' <= c <= '9' then Some(c as int - '0' as int)
    else if 'a' <= c <= 'f' then Some(c as int - 'a' as int + 10)
    else if 'A' <= c <= 'F' then Some(c as int - 'A' as int + 10)
    else None
  }

  /** Python's `'%0{width}x' % v` for `v < 16^width`: exactly `width` lower-case digits. */
  function FixedHex(v: nat, width: nat): (r: string)
    requires v < Pow16(width)
    ensures |r| == width
    ensures forall i :: 0 <= i < |r| ==> IsLowerHex(r[i])
  {
    if width == 0 then [] else FixedHex(v / 16, width - 1) + [HexDigit(v % 16)]
  }

  /** The value of a string of hexadecimal digits of either case; `None` if any character is not one. */
  function HexValue(s: string): (v: Option<nat>)
    ensures v.Some? <==> forall i :: 0 <= i < |s| ==> HexDigitValue(s[i]).Some?
    ensures v.Some? ==> v.value < Pow16(|s|)
  {
    if s == [] then Some(0)
    else match (HexValue(s[..|s| - 1]), HexDigitValue(s[|s| - 1]))
      case (Some(high), Some(low)) => Some(16 * high + low)
      case _ => None
  }

  lemma {:induction false} HexRoundTrip(v: nat, width: nat)
    requires v < Pow16(width)
    ensures HexValue(FixedHex(v, width)) == Some(v)
  {
    if width > 0 {
      var s := FixedHex(v, width);
      assert s[..|s| - 1] == FixedHex(v / 16, width - 1);
      HexRoundTrip(v / 16, width - 1);
      assert HexDigitValue(s[|s| - 1]) == Some(v % 16);
    }
  }

  /** A two-digit string reads as high digit times 16 plus low digit. */
  lemma HexValuePair(s: string)
    requires |s| == 2 && HexDigitValue(s[0]).Some? && HexDigitValue(s[1]).Some?
    ensures HexValue(s) == Some(16 * HexDigitValue(s[0]).value + HexDigitValue(s[1]).value)
  {
  }
}
