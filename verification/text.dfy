/**
 * String primitives of the two runtimes the scoreboard is written in:
 * JavaScript's `String(n)`, `padStart`, `trim`, `split`, `includes`,
 * `Number(s)` and `parseInt(s)`, and Python's `str.lower` on ASCII letters.
 * Strings are sequences of Unicode scalar values.
 */
module Text {
  import opened Wrappers

  // ---------------------------------------------------------------------------
  // Digits
  // ---------------------------------------------------------------------------

  predicate IsDigit(c: char) { '0' <= c <= '9' }

  predicate IsHexDigit(c: char) { IsDigit(c) || 'a' <= c <= 'f' || 'A' <= c <= 'F' }

  predicate AllDigits(s: string) { forall i | 0 <= i < |s| :: IsDigit(s[i]) }

  predicate AllHexDigits(s: string) { forall i | 0 <= i < |s| :: IsHexDigit(s[i]) }

  function DigitValue(c: char): (d: nat)
    requires IsDigit(c)
    ensures d < 10
  {
    (c as int) - ('0' as int)
  }

  function HexDigitValue(c: char): (d: nat)
    requires IsHexDigit(c)
    ensures d < 16
  {
    if IsDigit(c) then DigitValue(c)
    else if 'a' <= c <= 'f' then (c as int) - ('a' as int) + 10
    else (c as int) - ('A' as int) + 10
  }

  function DigitChar(d: nat): (c: char)
    requires d < 10
    ensures IsDigit(c) && DigitValue(c) == d
  {
    (('0' as int) + d) as char
  }

  /** The number a string of decimal digits denotes, most significant first. */
  function DigitsValue(s: string): nat
    requires AllDigits(s)
  {
    if s == [] then 0 else DigitsValue(s[..|s| - 1]) * 10 + DigitValue(s[|s| - 1])
  }

  function HexDigitsValue(s: string): nat
    requires AllHexDigits(s)
  {
    if s == [] then 0 else HexDigitsValue(s[..|s| - 1]) * 16 + HexDigitValue(s[|s| - 1])
  }

  /** A leading zero does not change the value of a digit string. */
  lemma {:induction false} LeadingZero(s: string)
    requires AllDigits(s)
    ensures AllDigits("0" + s) && DigitsValue("0" + s) == DigitsValue(s)
  {
    if s != [] {
      assert ("0" + s)[..|"0" + s| - 1] == "0" + s[..|s| - 1];
      LeadingZero(s[..|s| - 1]);
    }
  }

  /** JavaScript `String(n)` for a non-negative integer: its decimal digits without leading zeros. */
  function DecimalString(n: nat): (r: string)
    ensures |r| >= 1 && AllDigits(r)
    ensures DigitsValue(r) == n
    ensures |r| == 1 <==> n < 10
    ensures n < 100 ==> |r| <= 2
    ensures |r| > 1 ==> r[0] != '0'
  {
    if n < 10 then [DigitChar(n)]
    else
      var r := DecimalString(n / 10) + [DigitChar(n % 10)];
      assert r[..|r| - 1] == DecimalString(n / 10);
      r
  }

  /** JavaScript `s.padStart(2, '0')`. */
  function PadTwo(s: string): (r: string)
    ensures |s| >= 2 ==> r == s
    ensures |s| < 2 ==> |r| == 2 && r[2 - |s|..] == s
    ensures forall i | 0 <= i < |r| - |s| :: r[i] == '0'
    decreases 2 - |s|
  {
    if |s| >= 2 then s else PadTwo("0" + s)
  }

  // ---------------------------------------------------------------------------
  // Whitespace and trimming
  // ---------------------------------------------------------------------------

  /**
   * The characters JavaScript's `trim` and `Number` strip: the WhiteSpace set
   * (tab, vertical tab, form feed, space, no-break space, byte order mark and
   * the space separators) and the LineTerminator set.
   */
  predicate IsJsWhitespace(c: char)
  {
    c == '\U{9}' || c == '\U{B}' || c == '\U{C}' || c == ' ' || c == '\U{A0}' || c == '\U{FEFF}'
    || c == '\U{1680}' || ('\U{2000}' <= c <= '\U{200A}') || c == '\U{202F}' || c == '\U{205F}' || c == '\U{3000}'
    || c == '\n' || c == '\r' || c == '\U{2028}' || c == '\U{2029}'
  }

  /** The first index at or after `i` whose character is not whitespace, or `|s|`. */
  function SkipWhitespace(s: string, i: nat): (k: nat)
    requires i <= |s|
    ensures i <= k <= |s|
    decreases |s| - i
  {
    if i < |s| && IsJsWhitespace(s[i]) then SkipWhitespace(s, i + 1) else i
  }

  /** The end of `s[..j]` once its trailing whitespace is dropped. */
  function DropWhitespace(s: string, j: nat): (k: nat)
    requires j <= |s|
    ensures k <= j
  {
    if 0 < j && IsJsWhitespace(s[j - 1]) then DropWhitespace(s, j - 1) else j
  }

  /** `SkipWhitespace` passes over whitespace only and stops at a non-whitespace character. */
  lemma {:induction false} SkipWhitespaceSkipsOnlyWhitespace(s: string, i: nat)
    requires i <= |s|
    ensures forall m | i <= m < SkipWhitespace(s, i) :: IsJsWhitespace(s[m])
    ensures SkipWhitespace(s, i) < |s| ==> !IsJsWhitespace(s[SkipWhitespace(s, i)])
    decreases |s| - i
  {
    if i < |s| && IsJsWhitespace(s[i]) {
      SkipWhitespaceSkipsOnlyWhitespace(s, i + 1);
    }
  }

  /** `DropWhitespace` drops whitespace only and stops after a non-whitespace character. */
  lemma {:induction false} DropWhitespaceDropsOnlyWhitespace(s: string, j: nat)
    requires j <= |s|
    ensures forall m | DropWhitespace(s, j) <= m < j :: IsJsWhitespace(s[m])
    ensures 0 < DropWhitespace(s, j) ==> !IsJsWhitespace(s[DropWhitespace(s, j) - 1])
  {
    if 0 < j && IsJsWhitespace(s[j - 1]) {
      DropWhitespaceDropsOnlyWhitespace(s, j - 1);
    }
  }

  /** JavaScript `s.trimStart()`. */
  function TrimStart(s: string): string
  {
    s[SkipWhitespace(s, 0)..]
  }

  /** JavaScript `s.trim()`. */
  function Trim(s: string): string
  {
    var i := SkipWhitespace(s, 0);
    var j := DropWhitespace(s, |s|);
    if j <= i then "" else s[i..j]
  }

  /** `Trim` leaves nothing exactly when `s` is all whitespace. */
  lemma TrimEmptyIff(s: string)
    ensures Trim(s) == [] <==> forall i | 0 <= i < |s| :: IsJsWhitespace(s[i])
  {
    var i := SkipWhitespace(s, 0);
    var j := DropWhitespace(s, |s|);
    SkipWhitespaceSkipsOnlyWhitespace(s, 0);
    DropWhitespaceDropsOnlyWhitespace(s, |s|);
    if i < |s| {
      assert !IsJsWhitespace(s[i]);
      assert i < j;
    }
  }

  /**
   * `Trim` removes exactly the leading and trailing whitespace: what is left
   * occurs in `s`, starts and ends with a non-whitespace character, and is
   * empty exactly when `s` is all whitespace.
   */
  lemma TrimProperties(s: string)
    ensures exists i | 0 <= i :: OccursAt(s, Trim(s), i)
    ensures Trim(s) == [] || (!IsJsWhitespace(Trim(s)[0]) && !IsJsWhitespace(Trim(s)[|Trim(s)| - 1]))
    ensures Trim(s) == [] <==> forall i | 0 <= i < |s| :: IsJsWhitespace(s[i])
  {
    var i := SkipWhitespace(s, 0);
    var j := DropWhitespace(s, |s|);
    TrimEmptyIff(s);
    if j <= i {
      assert OccursAt(s, Trim(s), 0);
    } else {
      SkipWhitespaceSkipsOnlyWhitespace(s, 0);
      DropWhitespaceDropsOnlyWhitespace(s, |s|);
      assert OccursAt(s, Trim(s), i);
    }
  }

  /** A string that neither starts nor ends with whitespace is its own trim. */
  lemma TrimUntouched(s: string)
    requires s == [] || (!IsJsWhitespace(s[0]) && !IsJsWhitespace(s[|s| - 1]))
    ensures Trim(s) == s
  {
  }

  // ---------------------------------------------------------------------------
  // Splitting and searching
  // ---------------------------------------------------------------------------

  /** The inverse of `Split`: the parts separated by `sep`. */
  function Join(parts: seq<string>, sep: char): string
  {
    if |parts| <= 1 then (if parts == [] then "" else parts[0])
    else parts[0] + [sep] + Join(parts[1..], sep)
  }

  /** JavaScript `s.split(sep)` for a one-character separator. */
  function Split(s: string, sep: char): (parts: seq<string>)
    ensures |parts| >= 1
  {
    if s == [] then [""]
    else
      var rest := Split(s[1..], sep);
      if s[0] == sep then [""] + rest
      else [[s[0]] + rest[0]] + rest[1..]
  }

  /** No piece of a split holds the separator, and joining the pieces with it gives the input back. */
  lemma {:induction false} SplitProperties(s: string, sep: char)
    ensures forall i | 0 <= i < |Split(s, sep)| :: sep !in Split(s, sep)[i]
    ensures Join(Split(s, sep), sep) == s
    decreases |s|
  {
    if s != [] {
      SplitProperties(s[1..], sep);
      var rest := Split(s[1..], sep);
      var parts := Split(s, sep);
      if s[0] == sep {
        assert parts[1..] == rest;
        assert Join(parts, sep) == [] + [sep] + Join(rest, sep);
      } else {
        assert parts[0] == [s[0]] + rest[0] && parts[1..] == rest[1..];
        if |rest| == 1 {
          assert Join(parts, sep) == [s[0]] + rest[0];
        } else {
          assert Join(rest, sep) == rest[0] + [sep] + Join(rest[1..], sep);
          assert Join(parts, sep) == [s[0]] + rest[0] + [sep] + Join(rest[1..], sep);
        }
        assert [s[0]] + s[1..] == s;
      }
    }
  }

  /** Splitting a string that holds no separator yields that string alone. */
  lemma {:induction false} SplitNoSeparator(s: string, sep: char)
    requires sep !in s
    ensures Split(s, sep) == [s]
  {
    if s != [] {
      SplitNoSeparator(s[1..], sep);
      assert [s[0]] + s[1..] == s;
    }
  }

  /** The first separator ends the first part. */
  lemma {:induction false} SplitAtSeparator(a: string, sep: char, b: string)
    requires sep !in a
    ensures Split(a + [sep] + b, sep) == [a] + Split(b, sep)
  {
    if a != [] {
      assert (a + [sep] + b)[1..] == a[1..] + [sep] + b;
      SplitAtSeparator(a[1..], sep, b);
      var rest := Split(a[1..] + [sep] + b, sep);
      assert rest[0] == a[1..] && rest[1..] == Split(b, sep);
      assert [a[0]] + a[1..] == a;
    } else {
      assert (a + [sep] + b)[1..] == b;
    }
  }

  /** Splitting undoes joining, for parts that do not hold the separator. */
  lemma {:induction false} SplitJoin(parts: seq<string>, sep: char)
    requires |parts| >= 1
    requires forall i | 0 <= i < |parts| :: sep !in parts[i]
    ensures Split(Join(parts, sep), sep) == parts
  {
    if |parts| == 1 {
      SplitNoSeparator(parts[0], sep);
    } else {
      SplitJoin(parts[1..], sep);
      SplitAtSeparator(parts[0], sep, Join(parts[1..], sep));
    }
  }

  /** `sub` occurs in `s` starting at index `i`. */
  predicate OccursAt(s: string, sub: string, i: nat)
  {
    i + |sub| <= |s| && s[i..i + |sub|] == sub
  }

  /** JavaScript `s.includes(sub)`: `sub` occurs somewhere in `s`. */
  predicate Includes(s: string, sub: string)
  {
    exists i | 0 <= i <= |s| :: OccursAt(s, sub, i)
  }

  /**
   * `sub` does not occur in `s` when its `k`-th character is missing from
   * `s[..cut]` and what follows `cut` is too short to hold the rest of `sub`.
   */
  lemma NotIncluded(s: string, sub: string, k: nat, cut: nat)
    requires k < |sub| && cut <= |s|
    requires sub[k] !in s[..cut]
    requires |s| - cut + k < |sub|
    ensures !Includes(s, sub)
  {
    forall i | 0 <= i ensures !OccursAt(s, sub, i) {
      if i + |sub| <= |s| {
        assert s[i..i + |sub|][k] == s[..cut][i + k];
      }
    }
  }

  // ---------------------------------------------------------------------------
  // Case folding
  // ---------------------------------------------------------------------------

  function LowerChar(c: char): char { if 'A' <= c <= 'Z' then (c as int + 32) as char else c }

  function UpperChar(c: char): char { if 'a' <= c <= 'z' then (c as int - 32) as char else c }

  /** Python `str.lower` restricted to ASCII letters. */
  function Lower(s: string): (r: string)
    ensures |r| == |s| && forall i | 0 <= i < |s| :: r[i] == LowerChar(s[i])
  {
    seq(|s|, i requires 0 <= i < |s| => LowerChar(s[i]))
  }

  function Upper(s: string): (r: string)
    ensures |r| == |s| && forall i | 0 <= i < |s| :: r[i] == UpperChar(s[i])
  {
    seq(|s|, i requires 0 <= i < |s| => UpperChar(s[i]))
  }

  // ---------------------------------------------------------------------------
  // Number conversions
  // ---------------------------------------------------------------------------

  /**
   * JavaScript `Number(s)` on strings of integer form: surrounding whitespace is
   * ignored, an empty or blank string is 0, an optional sign may precede the
   * decimal digits. `None` stands for NaN.
   */
  function ToNumber(s: string): Option<int>
  {
    if s != [] && IsJsWhitespace(s[0]) then ToNumber(s[1..])
    else if s != [] && IsJsWhitespace(s[|s| - 1]) then ToNumber(s[..|s| - 1])
    else if s == [] then Some(0)
    else if (s[0] == '-' || s[0] == '+') && |s| > 1 then
      match DecimalValue(s[1..])
      case None => None
      case Some(m) => var v: int := if s[0] == '-' then 0 - (m as int) else m as int; Some(v)
    else DecimalValue(s)
  }

  /** The value of a non-empty string of decimal digits; `None` for anything else. */
  function DecimalValue(s: string): Option<nat>
  {
    if s == [] || !IsDigit(s[|s| - 1]) then None
    else if |s| == 1 then Some(DigitValue(s[0]))
    else match DecimalValue(s[..|s| - 1])
      case None => None
      case Some(m) => Some(m * 10 + DigitValue(s[|s| - 1]))
  }

  /** `DecimalValue` agrees with `DigitsValue` on the strings both accept. */
  lemma {:induction false} DecimalValueOfDigits(s: string)
    ensures DecimalValue(s).Some? <==> s != [] && AllDigits(s)
    ensures DecimalValue(s).Some? ==> DecimalValue(s).value == DigitsValue(s)
  {
    if s != [] && IsDigit(s[|s| - 1]) && |s| > 1 {
      var p := s[..|s| - 1];
      DecimalValueOfDigits(p);
      assert AllDigits(s) <==> AllDigits(p) by {
        assert forall i | 0 <= i < |p| :: p[i] == s[i];
      }
    }
  }

  /** A non-empty string of decimal digits is read as the number it denotes. */
  lemma ToNumberOfDigits(s: string)
    requires AllDigits(s) && s != []
    ensures ToNumber(s) == Some(DigitsValue(s))
  {
    DecimalValueOfDigits(s);
  }

  /** The longest prefix of `s` whose characters satisfy decimal `IsDigit`. */
  function DigitPrefix(s: string): (r: string)
    ensures |r| <= |s| && r == s[..|r|] && AllDigits(r)
    ensures |r| < |s| ==> !IsDigit(s[|r|])
  {
    if s != [] && IsDigit(s[0]) then [s[0]] + DigitPrefix(s[1..]) else ""
  }

  function HexDigitPrefix(s: string): (r: string)
    ensures |r| <= |s| && r == s[..|r|] && AllHexDigits(r)
    ensures |r| < |s| ==> !IsHexDigit(s[|r|])
  {
    if s != [] && IsHexDigit(s[0]) then [s[0]] + HexDigitPrefix(s[1..]) else ""
  }

  /**
   * JavaScript `parseInt(s)` with no radix: leading whitespace is skipped, an
   * optional sign is read, a `0x`/`0X` prefix selects hexadecimal, and the
   * longest run of digits that follows is the value. `None` stands for NaN.
   */
  function ParseInt(s: string): (r: Option<int>)
    ensures AllDigits(s) && s != [] ==> r == Some(DigitsValue(s))
  {
    var t := TrimStart(s);
    var negative := t != [] && t[0] == '-';
    var u := if t != [] && (t[0] == '-' || t[0] == '+') then t[1..] else t;
    var magnitude :=
      if |u| >= 2 && u[0] == '0' && (u[1] == 'x' || u[1] == 'X') then
        var z := HexDigitPrefix(u[2..]);
        if z == [] then None else Some(HexDigitsValue(z))
      else
        var z := DigitPrefix(u);
        if z == [] then None else Some(DigitsValue(z));
    assert AllDigits(s) && s != [] ==> t == s && u == s && DigitPrefix(u) == s by {
      if AllDigits(s) && s != [] {
        assert !IsJsWhitespace(s[0]);
        assert t == s;
        assert |DigitPrefix(u)| == |s|;
      }
    }
    match magnitude
    case None => None
    case Some(m) =>
      var v: int := if negative then 0 - (m as int) else m as int;
      Some(v)
  }
}
