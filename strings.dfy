/** The JavaScript string operations the application relies on (`trim`,
    `includes`, `startsWith`, `split`, `slice`, `padStart`, number-to-string),
    written over `seq<char>`. */
module Strings {

  /** The characters JavaScript's `trim` removes and the regular-expression
      class `\s` matches: the ASCII spaces and the Unicode space separators,
      line terminators and the byte-order mark. */
  predicate IsSpace(c: char) {
    c == ' ' || c == '\t' || c == '\n' || c == '\r' || c == '\U{000B}' || c == '\U{000C}'
    || c == '\U{00A0}' || c == '\U{1680}' || ('\U{2000}' <= c <= '\U{200A}')
    || c == '\U{2028}' || c == '\U{2029}' || c == '\U{202F}' || c == '\U{205F}'
    || c == '\U{3000}' || c == '\U{FEFF}'
  }

  /** Every character is whitespace (the empty string included). */
  predicate IsBlank(s: string) {
    forall i :: 0 <= i < |s| ==> IsSpace(s[i])
  }

  function TrimStart(s: string): (r: string)
    ensures |r| <= |s| && r == s[|s| - |r|..]
    ensures forall i :: 0 <= i < |s| - |r| ==> IsSpace(s[i])
    ensures r == [] || !IsSpace(r[0])
  {
    if s == [] || !IsSpace(s[0]) then s else TrimStart(s[1..])
  }

  function TrimEnd(s: string): (r: string)
    ensures |r| <= |s| && r == s[..|r|]
    ensures forall i :: |r| <= i < |s| ==> IsSpace(s[i])
    ensures r == [] || !IsSpace(r[|r| - 1])
  {
    if s == [] || !IsSpace(s[|s| - 1]) then s else TrimEnd(s[..|s| - 1])
  }

  /** JavaScript's `String.prototype.trim`. */
  function Trim(s: string): (r: string)
    ensures r == [] || (!IsSpace(r[0]) && !IsSpace(r[|r| - 1]))
  {
    TrimEnd(TrimStart(s))
  }

  /** Trimming keeps a middle slice s[i..j] and cuts off only whitespace. */
  lemma TrimSlice(s: string)
    ensures exists i, j ::
              && 0 <= i <= j <= |s| && Trim(s) == s[i..j]
              && (forall k :: 0 <= k < i ==> IsSpace(s[k]))
              && (forall k :: j <= k < |s| ==> IsSpace(s[k]))
  {
    var t := TrimStart(s);
    MiddleSlice(s, |s| - |t|, t, TrimEnd(t));
  }

  /** The head and the tail of a concatenation with a non-empty left side. */
  lemma HeadOfConcat<T>(a: seq<T>, b: seq<T>)
    requires a != []
    ensures (a + b)[0] == a[0] && (a + b)[1..] == a[1..] + b
  {
  }

  /** A sequence is what comes before position k, the element there, and what follows. */
  lemma AroundIndex<T>(xs: seq<T>, k: nat)
    requires k < |xs|
    ensures xs == xs[..k] + [xs[k]] + xs[k + 1..]
  {
  }

  /** Whitespace cut off before a suffix t of s and after a prefix r of t. */
  lemma MiddleSlice(s: string, i: nat, t: string, r: string)
    requires i <= |s| && t == s[i..] && forall k :: 0 <= k < i ==> IsSpace(s[k])
    requires |r| <= |t| && r == t[..|r|] && forall k :: |r| <= k < |t| ==> IsSpace(t[k])
    ensures i + |r| <= |s| && r == s[i..i + |r|]
    ensures forall k :: i + |r| <= k < |s| ==> IsSpace(s[k])
  {
    forall k | i + |r| <= k < |s|
      ensures IsSpace(s[k])
    {
      assert s[k] == t[k - i];
    }
  }

  /** A string trims to nothing exactly when it is blank. */
  lemma TrimEmptyIffBlank(s: string)
    ensures Trim(s) == [] <==> IsBlank(s)
  {
    var t := TrimStart(s);
    if Trim(s) == [] {
      assert t == [];
    } else {
      assert !IsSpace(Trim(s)[0]);
      var k := |s| - |t|;
      assert Trim(s)[0] == t[0] == s[k];
    }
  }

  /** `s.startsWith(p)`. */
  predicate StartsWith(s: string, p: string) {
    |p| <= |s| && s[..|p|] == p
  }

  /** `s.endsWith(p)`. */
  predicate EndsWith(s: string, p: string) {
    |p| <= |s| && s[|s| - |p|..] == p
  }

  /** `s.includes(t)`: t occurs in s at some position. */
  predicate Contains(s: string, t: string)
    decreases |s|
  {
    StartsWith(s, t) || (s != [] && Contains(s[1..], t))
  }

  /** A single character occurs in s. */
  predicate HasChar(s: string, c: char) {
    exists i :: 0 <= i < |s| && s[i] == c
  }

  lemma ContainsCharIffHasChar(s: string, c: char)
    ensures Contains(s, [c]) <==> HasChar(s, c)
  {
    if s != [] {
      ContainsCharIffHasChar(s[1..], c);
      assert StartsWith(s, [c]) <==> s[0] == c;
      if HasChar(s, c) && s[0] != c {
        var i :| 0 <= i < |s| && s[i] == c;
        assert s[1..][i - 1] == c;
      }
      if HasChar(s[1..], c) {
        var i :| 0 <= i < |s[1..]| && s[1..][i] == c;
        assert s[i + 1] == c;
      }
    }
  }

  /** Printable ASCII holds no line break. */
  lemma PrintableHasNoNewline(s: string)
    requires forall i :: 0 <= i < |s| ==> ' ' <= s[i] <= '~'
    ensures !HasChar(s, '\n')
  {
  }

  /** Two strings without a character joined hold none either. */
  lemma NoNewlineConcat(a: string, b: string)
    requires !HasChar(a, '\n') && !HasChar(b, '\n')
    ensures !HasChar(a + b, '\n')
  {
    forall i | 0 <= i < |a + b| ensures (a + b)[i] != '\n' {
      if i >= |a| { assert (a + b)[i] == b[i - |a|]; } else { assert (a + b)[i] == a[i]; }
    }
  }

  /** `parts.join(sep)`. */
  function Join(parts: seq<string>, sep: char): string {
    if |parts| == 0 then ""
    else if |parts| == 1 then parts[0]
    else parts[0] + [sep] + Join(parts[1..], sep)
  }

  /** `s.split(sep)` for a one-character separator: always at least one piece,
      no piece holds the separator, and joining the pieces gives s back. */
  function Split(s: string, sep: char): (r: seq<string>)
    ensures |r| >= 1
    ensures forall k :: 0 <= k < |r| ==> !HasChar(r[k], sep)
    ensures Join(r, sep) == s
  {
    if s == [] then [""]
    else
      var rest := Split(s[1..], sep);
      if s[0] == sep then [""] + rest
      else
        assert !HasChar([s[0]] + rest[0], sep) by {
          forall i | 0 <= i < |[s[0]] + rest[0]| ensures ([s[0]] + rest[0])[i] != sep {
            if i > 0 { assert ([s[0]] + rest[0])[i] == rest[0][i - 1]; }
          }
        }
        [[s[0]] + rest[0]] + rest[1..]
  }

  /** A string without the separator splits into itself alone. */
  lemma {:induction false} SplitWithoutSep(s: string, sep: char)
    requires !HasChar(s, sep)
    ensures Split(s, sep) == [s]
  {
    if s != [] {
      assert !HasChar(s[1..], sep) by {
        forall i | 0 <= i < |s[1..]| ensures s[1..][i] != sep { assert s[1..][i] == s[i + 1]; }
      }
      SplitWithoutSep(s[1..], sep);
      assert s[0] != sep;
      assert [s[0]] + s[1..] == s;
    }
  }

  /** The piece after the last separator is the last piece. */
  lemma {:induction false} SplitLastAfterSep(a: string, sep: char, b: string)
    requires !HasChar(b, sep)
    ensures |Split(a + [sep] + b, sep)| >= 2
    ensures Split(a + [sep] + b, sep)[|Split(a + [sep] + b, sep)| - 1] == b
    decreases |a|
  {
    var s := a + [sep] + b;
    if a == [] {
      assert s[1..] == b;
      SplitWithoutSep(b, sep);
    } else {
      assert s[1..] == a[1..] + [sep] + b;
      SplitLastAfterSep(a[1..], sep, b);
    }
  }

  /** `s.slice(0, n)` for n >= 0. */
  function Prefix(s: string, n: nat): (r: string)
    ensures |r| == if n < |s| then n else |s|
    ensures r == s[..|r|]
  {
    if n < |s| then s[..n] else s
  }

  /** ASCII upper case to lower case; every other character unchanged. */
  function LowerChar(c: char): char {
    if 'A' <= c <= 'Z' then (c as int + 32) as char else c
  }

  /** `s.toLowerCase()`, restricted to ASCII letters. */
  function ToLower(s: string): (r: string)
    ensures |r| == |s|
    ensures forall i :: 0 <= i < |s| ==> r[i] == LowerChar(s[i])
  {
    if s == [] then "" else [LowerChar(s[0])] + ToLower(s[1..])
  }

  /** Every character is a decimal digit. */
  predicate AllDigits(s: string) {
    forall i :: 0 <= i < |s| ==> '0' <= s[i] <= '9'
  }

  function DigitChar(d: nat): char
    requires d < 10
  {
    "0123456789"[d]
  }

  /** The decimal digits of n, as `n.toString()` writes them. */
  function NatToString(n: nat): (r: string)
    ensures |r| >= 1
    ensures AllDigits(r)
    ensures |r| > 1 ==> r[0] != '0'
    decreases n
  {
    if n < 10 then [DigitChar(n)] else NatToString(n / 10) + [DigitChar(n % 10)]
  }

  /** Numbers below ten, a hundred and a thousand have at most one, two
      and three digits. */
  lemma NatToStringShort(n: nat)
    ensures n < 10 ==> |NatToString(n)| == 1
    ensures n < 100 ==> |NatToString(n)| <= 2
    ensures n < 1000 ==> |NatToString(n)| <= 3
  {
    if n >= 10 {
      NatToStringShort(n / 10);
    }
  }

  /** The number a string of decimal digits denotes. */
  function DigitsValue(s: string): nat
    requires AllDigits(s)
    decreases |s|
  {
    if s == [] then 0 else DigitsValue(s[..|s| - 1]) * 10 + (s[|s| - 1] as int - '0' as int)
  }

  /** Reading back the digits `toString` writes gives the number again. */
  lemma {:induction false} NatToStringRoundTrip(n: nat)
    ensures DigitsValue(NatToString(n)) == n
    decreases n
  {
    if n >= 10 {
      NatToStringRoundTrip(n / 10);
      var s := NatToString(n);
      assert s[..|s| - 1] == NatToString(n / 10);
    }
  }

  /** A leading zero does not change the number. */
  lemma {:induction false} LeadingZeroValue(s: string)
    requires AllDigits(s)
    ensures DigitsValue("0" + s) == DigitsValue(s)
    decreases |s|
  {
    if s != [] {
      var t := "0" + s;
      assert t[..|t| - 1] == "0" + s[..|s| - 1];
      LeadingZeroValue(s[..|s| - 1]);
    }
  }

  /** Padding digits with zeros keeps the number they denote. */
  lemma {:induction false} PadZerosValue(s: string, width: nat)
    requires AllDigits(s)
    ensures AllDigits(PadStart(s, width, '0'))
    ensures DigitsValue(PadStart(s, width, '0')) == DigitsValue(s)
    decreases width - |s|
  {
    if |s| < width {
      assert "0" + s == ['0'] + s;
      PadStartStep(s, width, '0');
      LeadingZeroValue(s);
      PadZerosValue(['0'] + s, width);
    }
  }

  /** Splitting at a separator splits the two sides apart. */
  lemma {:induction false} SplitConcat(a: string, sep: char, b: string)
    ensures Split(a + [sep] + b, sep) == Split(a, sep) + Split(b, sep)
    decreases |a|
  {
    var s := a + [sep] + b;
    if a == [] {
      assert s[1..] == b;
    } else {
      assert s[1..] == a[1..] + [sep] + b;
      SplitConcat(a[1..], sep, b);
    }
  }

  /** Two lines without the separator, then the rest: the two lines come
      first among the pieces. */
  lemma TwoLinesThen(a: string, b: string, sep: char, rest: string)
    requires !HasChar(a, sep) && !HasChar(b, sep)
    ensures Split(a + [sep] + b + [sep] + rest, sep) == [a, b] + Split(rest, sep)
  {
    var t := b + [sep] + rest;
    calc {
      Split(a + [sep] + b + [sep] + rest, sep);
      { assert a + [sep] + b + [sep] + rest == a + [sep] + t; }
      Split(a + [sep] + t, sep);
      { SplitConcat(a, sep, t); }
      Split(a, sep) + Split(t, sep);
      { SplitConcat(b, sep, rest); }
      Split(a, sep) + Split(b, sep) + Split(rest, sep);
      { SplitWithoutSep(a, sep); SplitWithoutSep(b, sep); }
      [a] + [b] + Split(rest, sep);
    }
  }

  /** `i.toString()` for an integer: a minus sign before the digits when negative. */
  function IntToString(i: int): (r: string)
    ensures |r| >= 1
    ensures i < 0 <==> r[0] == '-'
  {
    if i < 0 then "-" + NatToString(-i) else NatToString(i)
  }

  /** After the sign, `i.toString()` is decimal digits that read back as
      the magnitude of `i`. */
  lemma IntToStringDigits(i: int)
    ensures var r := IntToString(i);
      var digits := if i < 0 then r[1..] else r;
      AllDigits(digits) && DigitsValue(digits) == if i < 0 then -i else i
  {
    var n: nat := if i < 0 then -i else i;
    NatToStringRoundTrip(n);
    if i < 0 {
      assert IntToString(i)[1..] == NatToString(n);
    }
  }

  /** `s.padStart(width, c)`: c repeated in front until the length is width. */
  function PadStart(s: string, width: nat, c: char): (r: string)
    ensures |r| == if |s| < width then width else |s|
    ensures EndsWith(r, s)
    ensures forall i :: 0 <= i < |r| - |s| ==> r[i] == c
  {
    if |s| < width then
      var fill := seq(width - |s|, _ => c);
      assert (fill + s)[|fill|..] == s;
      fill + s
    else s
  }

  /** Padding adds one fill character at a time. */
  lemma PadStartStep(s: string, width: nat, c: char)
    requires |s| < width
    ensures PadStart(s, width, c) == PadStart([c] + s, width, c)
  {
    var r := PadStart(s, width, c);
    var q := PadStart([c] + s, width, c);
    assert |r| == |q|;
    forall i | 0 <= i < |r| ensures r[i] == q[i] {
      if i < |r| - |s| - 1 {
      } else if i == |r| - |s| - 1 {
        assert q[|q| - |[c] + s|..] == [c] + s;
        assert q[i] == ([c] + s)[0];
      } else {
        assert r[|r| - |s|..] == s;
        assert q[|q| - |[c] + s|..] == [c] + s;
        assert r[i] == s[i - (|r| - |s|)];
        assert q[i] == ([c] + s)[i - (|q| - |s| - 1)];
      }
    }
  }
}
