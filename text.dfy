/** String helpers the client relies on: `Array.prototype.join`, splitting a
    copied text into lines, the decimal rendering of `${idx + 1}`, JavaScript's
    `String.prototype.trim` and the UTF-16 `length` of a string.
    Strings are sequences of Unicode scalar values. */
module Text {

  /** `items.join(sep)`: the items with `sep` between consecutive ones. */
  function Join(items: seq<string>, sep: string): string
  {
    if |items| == 0 then []
    else if |items| == 1 then items[0]
    else items[0] + sep + Join(items[1..], sep)
  }

  predicate NoNewline(s: string) {
    '\n' !in s
  }

  /** The lines of a text: the maximal newline-free pieces between '\n's.
      The empty text has one (empty) line. */
  function Split(s: string): (r: seq<string>)
    ensures |r| >= 1
    ensures forall k :: 0 <= k < |r| ==> NoNewline(r[k])
  {
    if s == [] then [[]]
    else
      var rest := Split(s[1..]);
      if s[0] == '\n' then [[]] + rest
      else [[s[0]] + rest[0]] + rest[1..]
  }

  lemma {:induction false} SplitNoNewline(s: string)
    requires NoNewline(s)
    ensures Split(s) == [s]
  {
    if s != [] {
      assert s == [s[0]] + s[1..];
      SplitNoNewline(s[1..]);
    }
  }

  /** Splitting at a newline separates the lines on its two sides. */
  lemma {:induction false} SplitAtNewline(a: string, b: string)
    ensures Split(a + "\n" + b) == Split(a) + Split(b)
  {
    if a == [] {
      assert a + "\n" + b == ['\n'] + b;
      assert (['\n'] + b)[1..] == b;
    } else {
      var s := a + "\n" + b;
      assert s[0] == a[0];
      assert s[1..] == a[1..] + "\n" + b;
      SplitAtNewline(a[1..], b);
    }
  }

  /** Joining k >= 1 newline-free items with "\n" and splitting the result
      gives back exactly the items: k lines, line i being item i. */
  lemma {:induction false} SplitJoinLines(items: seq<string>)
    requires |items| >= 1
    requires forall k :: 0 <= k < |items| ==> NoNewline(items[k])
    ensures Split(Join(items, "\n")) == items
  {
    if |items| == 1 {
      SplitNoNewline(items[0]);
    } else {
      SplitNoNewline(items[0]);
      SplitAtNewline(items[0], Join(items[1..], "\n"));
      SplitJoinLines(items[1..]);
    }
  }

  /** Joining with a blank line ("\n\n") puts one empty line between the
      lines of consecutive items. */
  lemma SplitAtBlankLine(a: string, b: string)
    ensures Split(a + "\n\n" + b) == Split(a) + [[]] + Split(b)
  {
    assert a + "\n\n" + b == a + "\n" + ([] + "\n" + b);
    SplitAtNewline(a, [] + "\n" + b);
    SplitAtNewline([], b);
  }

  // ---------------------------------------------------------------------
  // Decimal numerals, as `${n}` renders a non-negative integer

  function DigitChar(d: nat): (c: char)
    requires d < 10
    ensures '0' <= c <= '9'
  {
    "0123456789"[d]
  }

  predicate IsDigit(c: char) {
    '0' <= c <= '9'
  }

  function DigitValue(c: char): nat
    requires IsDigit(c)
  {
    c as int - '0' as int
  }

  function NatToString(n: nat): (r: string)
    ensures |r| >= 1
    ensures forall k :: 0 <= k < |r| ==> IsDigit(r[k])
  {
    if n < 10 then [DigitChar(n)]
    else NatToString(n / 10) + [DigitChar(n % 10)]
  }

  /** The value of a string of decimal digits. */
  function DigitsValue(s: string): nat
    requires forall k :: 0 <= k < |s| ==> IsDigit(s[k])
  {
    if s == [] then 0
    else DigitsValue(s[..|s| - 1]) * 10 + DigitValue(s[|s| - 1])
  }

  /** The numeral reads back as the number it was made from, with no
      leading zero: distinct item numbers get distinct labels. */
  lemma {:induction false} NatToStringValue(n: nat)
    ensures DigitsValue(NatToString(n)) == n
    ensures n > 0 ==> NatToString(n)[0] != '0'
  {
    var r := NatToString(n);
    if n < 10 {
      assert DigitValue(DigitChar(n)) == n;
    } else {
      NatToStringValue(n / 10);
      assert r[..|r| - 1] == NatToString(n / 10);
      assert DigitValue(DigitChar(n % 10)) == n % 10;
    }
  }

  lemma NatToStringInjective(m: nat, n: nat)
    requires NatToString(m) == NatToString(n)
    ensures m == n
  {
    NatToStringValue(m);
    NatToStringValue(n);
  }

  // ---------------------------------------------------------------------
  // String.prototype.trim

  /** JavaScript's WhiteSpace and LineTerminator code points, the ones
      `trim` removes. */
  predicate IsJsSpace(c: char) {
    || c == '\t' || c == '\n' || c == '\U{000B}' || c == '\U{000C}' || c == '\r'
    || c == ' ' || c == '\U{00A0}' || c == '\U{1680}'
    || ('\U{2000}' <= c <= '\U{200A}')
    || c == '\U{2028}' || c == '\U{2029}' || c == '\U{202F}' || c == '\U{205F}'
    || c == '\U{3000}' || c == '\U{FEFF}'
  }

  function TrimStart(s: string): string {
    if s != [] && IsJsSpace(s[0]) then TrimStart(s[1..]) else s
  }

  function TrimEnd(s: string): string {
    if s != [] && IsJsSpace(s[|s| - 1]) then TrimEnd(s[..|s| - 1]) else s
  }

  /** `s.trim()` */
  function Trim(s: string): string {
    TrimEnd(TrimStart(s))
  }

  /** `trimStart` removes the longest all-space prefix. */
  lemma {:induction false} TrimStartShape(s: string)
    ensures |TrimStart(s)| <= |s| && TrimStart(s) == s[|s| - |TrimStart(s)|..]
    ensures forall k :: 0 <= k < |s| - |TrimStart(s)| ==> IsJsSpace(s[k])
    ensures TrimStart(s) == [] || !IsJsSpace(TrimStart(s)[0])
  {
    if s != [] && IsJsSpace(s[0]) {
      var rest := s[1..];
      TrimStartShape(rest);
      var r := TrimStart(rest);
      assert TrimStart(s) == r;
      assert rest[|rest| - |r|..] == s[|s| - |r|..];
      forall k | 0 <= k < |s| - |r| ensures IsJsSpace(s[k]) {
        if k > 0 { assert s[k] == rest[k - 1]; }
      }
    }
  }

  /** `trimEnd` removes the longest all-space suffix. */
  lemma {:induction false} TrimEndShape(s: string)
    ensures |TrimEnd(s)| <= |s| && TrimEnd(s) == s[..|TrimEnd(s)|]
    ensures forall k :: |TrimEnd(s)| <= k < |s| ==> IsJsSpace(s[k])
    ensures TrimEnd(s) == [] || !IsJsSpace(TrimEnd(s)[|TrimEnd(s)| - 1])
  {
    if s != [] && IsJsSpace(s[|s| - 1]) {
      var rest := s[..|s| - 1];
      TrimEndShape(rest);
      var r := TrimEnd(rest);
      assert TrimEnd(s) == r;
      assert rest[..|r|] == s[..|r|];
      forall k | |r| <= k < |s| ensures IsJsSpace(s[k]) {
        if k < |rest| { assert s[k] == rest[k]; }
      }
    }
  }

  /** The trimmed text is the slice of `s` between its leading and trailing
      white space: never longer, and starting and ending with a non-space. */
  lemma TrimShape(s: string)
    ensures var r := Trim(s);
      && |r| <= |TrimStart(s)| <= |s|
      && r == s[|s| - |TrimStart(s)|..][..|r|]
      && (forall k :: 0 <= k < |s| - |TrimStart(s)| ==> IsJsSpace(s[k]))
      && (forall k :: |s| - |TrimStart(s)| + |r| <= k < |s| ==> IsJsSpace(s[k]))
      && (r == [] || (!IsJsSpace(r[0]) && !IsJsSpace(r[|r| - 1])))
  {
    var t := TrimStart(s);
    TrimStartShape(s);
    TrimEndShape(t);
    var r := Trim(s);
    assert r != [] ==> r[0] == t[0];
    forall k | |s| - |t| + |r| <= k < |s| ensures IsJsSpace(s[k]) {
      assert s[k] == t[k - (|s| - |t|)];
    }
  }

  // ---------------------------------------------------------------------
  // JavaScript `length`: UTF-16 code units

  /** Code units a character takes in UTF-16: two for a code point outside
      the Basic Multilingual Plane (a surrogate pair), one otherwise. */
  function Utf16Units(c: char): nat {
    if c as int >= 0x1_0000 then 2 else 1
  }

  function Utf16Length(s: string): nat {
    if s == [] then 0 else Utf16Length(s[..|s| - 1]) + Utf16Units(s[|s| - 1])
  }

  predicate InBmp(s: string) {
    forall k :: 0 <= k < |s| ==> s[k] as int < 0x1_0000
  }

  /** A JavaScript length is at least the number of characters, and equals
      it exactly for text inside the Basic Multilingual Plane. */
  lemma {:induction false} Utf16LengthBounds(s: string)
    ensures |s| <= Utf16Length(s) <= 2 * |s|
    ensures Utf16Length(s) == |s| <==> InBmp(s)
  {
    if s != [] {
      var p := s[..|s| - 1];
      Utf16LengthBounds(p);
      if InBmp(s) {
        assert InBmp(p) by {
          forall k | 0 <= k < |p| ensures p[k] as int < 0x1_0000 {
            assert p[k] == s[k];
          }
        }
      }
      if Utf16Length(s) == |s| {
        forall k | 0 <= k < |s| ensures s[k] as int < 0x1_0000 {
          if k < |p| { assert s[k] == p[k]; }
        }
      }
    }
  }
}
