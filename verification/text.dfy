/**
 * The JavaScript string primitives the bot relies on, written out over
 * `seq<char>`: `startsWith`, `indexOf`/`includes`, `trim`, `split(/ +/)`,
 * `join`, `toLowerCase` (the ASCII capitals and the Kelvin sign, the
 * characters whose lower case is ASCII), integer `toString`, `parseInt`
 * (explicit radix 10 and the automatic radix) and the text of a whole number
 * of milliseconds divided by 1000.
 */
module Text {
  import opened Wrappers

  // ---------------------------------------------------------------------
  // Searching
  // ---------------------------------------------------------------------

  /** `s.startsWith(p)`. */
  predicate StartsWith(s: string, p: string) {
    |p| <= |s| && s[..|p|] == p
  }

  /** `p` occurs in `s` starting at index `i`. */
  predicate OccursAt(s: string, p: string, i: int) {
    0 <= i && i + |p| <= |s| && s[i..i + |p|] == p
  }

  /** `s.indexOf(p) > -1` / `s.includes(p)`, as a left-to-right scan. */
  predicate Contains(s: string, p: string)
    decreases |s|
  {
    StartsWith(s, p) || (|s| > 0 && Contains(s[1..], p))
  }

  /** An occurrence at index `i` is found by the scan. */
  lemma {:induction false} OccursContains(s: string, p: string, i: int)
    requires OccursAt(s, p, i)
    ensures Contains(s, p)
    decreases i
  {
    if i > 0 {
      assert s[1..][i - 1..i - 1 + |p|] == s[i..i + |p|];
      OccursContains(s[1..], p, i - 1);
    }
  }

  /** What the scan finds is an occurrence. */
  lemma {:induction false} ContainsOccurs(s: string, p: string) returns (i: int)
    requires Contains(s, p)
    ensures OccursAt(s, p, i)
    decreases |s|
  {
    if StartsWith(s, p) {
      i := 0;
    } else {
      var j := ContainsOccurs(s[1..], p);
      assert s[1..][j..j + |p|] == s[j + 1..j + 1 + |p|];
      i := j + 1;
    }
  }

  /** Every text contains itself. */
  lemma ContainsItself(s: string)
    ensures Contains(s, s)
  {
    assert s[..|s|] == s;
  }

  /** A text without the first character of `p` does not contain `p`. */
  lemma {:induction false} NotContainsWithoutHead(s: string, p: string)
    requires p != [] && p[0] !in s
    ensures !Contains(s, p)
    decreases |s|
  {
    if |p| <= |s| {
      assert s[..|p|][0] == s[0];
    }
    if s != [] {
      assert forall k :: 0 <= k < |s[1..]| ==> s[1..][k] == s[k + 1];
      NotContainsWithoutHead(s[1..], p);
    }
  }

  /** The scan finds `p` exactly when `p` occurs somewhere in `s`. */
  lemma ContainsIff(s: string, p: string)
    ensures Contains(s, p) <==> exists i :: OccursAt(s, p, i)
  {
    if Contains(s, p) {
      var i := ContainsOccurs(s, p);
    }
    forall i | OccursAt(s, p, i) ensures Contains(s, p) {
      OccursContains(s, p, i);
    }
  }

  // ---------------------------------------------------------------------
  // White space and `trim`
  // ---------------------------------------------------------------------

  /** The characters `String.prototype.trim` removes: white space and line terminators. */
  predicate IsWhiteSpace(c: char) {
    c == '\t' || c == '\n' || c == '\U{0B}' || c == '\U{0C}' || c == '\r' || c == ' '
    || c == '\U{A0}' || c == '\U{1680}' || ('\U{2000}' <= c <= '\U{200A}')
    || c == '\U{2028}' || c == '\U{2029}' || c == '\U{202F}' || c == '\U{205F}'
    || c == '\U{3000}' || c == '\U{FEFF}'
  }

  /** `s.trimStart()`: the suffix left after the leading white space. */
  function TrimStart(s: string): (r: string)
    ensures |r| <= |s| && r == s[|s| - |r|..]
    ensures r == [] || !IsWhiteSpace(r[0])
    ensures forall i :: 0 <= i < |s| - |r| ==> IsWhiteSpace(s[i])
    decreases |s|
  {
    if |s| > 0 && IsWhiteSpace(s[0]) then TrimStart(s[1..]) else s
  }

  /** `s.trimEnd()`: the prefix left before the trailing white space. */
  function TrimEnd(s: string): (r: string)
    ensures |r| <= |s| && r == s[..|r|]
    ensures r == [] || !IsWhiteSpace(r[|r| - 1])
    ensures forall i :: |r| <= i < |s| ==> IsWhiteSpace(s[i])
    decreases |s|
  {
    if |s| > 0 && IsWhiteSpace(s[|s| - 1]) then TrimEnd(s[..|s| - 1]) else s
  }

  /** `s.trim()`. */
  function Trim(s: string): (r: string)
    ensures |r| <= |s|
    ensures r == [] || (!IsWhiteSpace(r[0]) && !IsWhiteSpace(r[|r| - 1]))
  {
    TrimEnd(TrimStart(s))
  }

  // ---------------------------------------------------------------------
  // Splitting on runs of spaces and joining
  // ---------------------------------------------------------------------

  /** The suffix of `s` after its leading spaces (U+0020 only). */
  function DropSpaces(s: string): (r: string)
    ensures |r| <= |s| && r == s[|s| - |r|..]
    ensures r == [] || r[0] != ' '
    ensures forall i :: 0 <= i < |s| - |r| ==> s[i] == ' '
    ensures |s| > 0 && s[0] == ' ' ==> |r| < |s|
    decreases |s|
  {
    if |s| > 0 && s[0] == ' ' then DropSpaces(s[1..]) else s
  }

  /** `s.split(/ +/)`: the pieces between maximal runs of spaces, empty pieces at the ends kept. */
  function SplitSpaces(s: string): (r: seq<string>)
    ensures |r| >= 1
    ensures forall k :: 0 <= k < |r| ==> ' ' !in r[k]
    decreases |s|
  {
    if s == [] then [""]
    else if s[0] != ' ' then
      var rest := SplitSpaces(s[1..]);
      [[s[0]] + rest[0]] + rest[1..]
    else
      [""] + SplitSpaces(DropSpaces(s))
  }

  /** `parts.join(sep)`. */
  function Join(parts: seq<string>, sep: string): string
    decreases |parts|
  {
    if |parts| == 0 then ""
    else if |parts| == 1 then parts[0]
    else parts[0] + sep + Join(parts[1..], sep)
  }

  /** A space-free word in front of `rest` glues onto the first piece of `rest`. */
  lemma {:induction false} SplitAfterWord(w: string, rest: string)
    requires ' ' !in w
    ensures SplitSpaces(w + rest)
         == [w + SplitSpaces(rest)[0]] + SplitSpaces(rest)[1..]
    decreases |w|
  {
    if w != [] {
      assert (w + rest)[0] == w[0];
      assert (w + rest)[1..] == w[1..] + rest;
      SplitAfterWord(w[1..], rest);
      assert [w[0]] + (w[1..] + SplitSpaces(rest)[0]) == w + SplitSpaces(rest)[0];
    } else {
      assert w + rest == rest;
      assert w + SplitSpaces(rest)[0] == SplitSpaces(rest)[0];
      assert SplitSpaces(rest) == [SplitSpaces(rest)[0]] + SplitSpaces(rest)[1..];
    }
  }

  /** Splitting undoes joining with one space, for non-empty space-free words. */
  lemma {:induction false} SplitJoin(words: seq<string>)
    requires |words| >= 1
    requires forall k :: 0 <= k < |words| ==> words[k] != [] && ' ' !in words[k]
    ensures SplitSpaces(Join(words, " ")) == words
    decreases |words|
  {
    if |words| == 1 {
      SplitAfterWord(words[0], "");
      assert words[0] + "" == words[0];
    } else {
      var tail := Join(words[1..], " ");
      SplitJoin(words[1..]);
      assert tail == [] || tail[0] != ' ' by {
        JoinHead(words[1..]);
      }
      assert DropSpaces(" " + tail) == tail by {
        assert (" " + tail)[1..] == tail;
      }
      assert SplitSpaces(" " + tail) == [""] + words[1..];
      SplitAfterWord(words[0], " " + tail);
      assert Join(words, " ") == words[0] + (" " + tail);
      assert words[0] + "" == words[0];
      assert [words[0]] + words[1..] == words;
    }
  }

  /** A join of non-empty space-free words starts with the first word's first letter. */
  lemma {:induction false} JoinHead(words: seq<string>)
    requires |words| >= 1
    requires forall k :: 0 <= k < |words| ==> words[k] != [] && ' ' !in words[k]
    ensures |Join(words, " ")| > 0 && Join(words, " ")[0] == words[0][0]
  {
  }

  /** A join of non-empty words ends with the last word's last letter. */
  lemma {:induction false} JoinLast(words: seq<string>, sep: string)
    requires |words| >= 1
    requires forall k :: 0 <= k < |words| ==> words[k] != []
    ensures |Join(words, sep)| > 0 && Join(words, sep)[|Join(words, sep)| - 1] == words[|words| - 1][|words[|words| - 1]| - 1]
    decreases |words|
  {
    if |words| > 1 {
      JoinLast(words[1..], sep);
      assert words[1..][|words[1..]| - 1] == words[|words| - 1];
    }
  }

  /** `trim` leaves alone a string that neither starts nor ends with white space. */
  lemma TrimTrimmed(s: string)
    requires s == [] || (!IsWhiteSpace(s[0]) && !IsWhiteSpace(s[|s| - 1]))
    ensures Trim(s) == s
  {
  }

  /** `trim` drops white space in front. */
  lemma TrimAfterSpace(w: string, s: string)
    requires forall i :: 0 <= i < |w| ==> IsWhiteSpace(w[i])
    ensures Trim(w + s) == Trim(s)
    decreases |w|
  {
    if w != [] {
      assert (w + s)[1..] == w[1..] + s;
      TrimAfterSpace(w[1..], s);
    } else {
      assert w + s == s;
    }
  }

  // ---------------------------------------------------------------------
  // Case
  // ---------------------------------------------------------------------

  /** The Kelvin sign, the one character outside ASCII whose lower case is an ASCII letter (`k`). */
  const KelvinSign: char := '\U{212A}'

  /**
   * `toLowerCase` of one character, for the characters whose lower case is
   * ASCII: the upper-case ASCII letters and the Kelvin sign. Every other
   * character is left as it is.
   */
  function LowerChar(c: char): (r: char)
    ensures 'A' <= c <= 'Z' ==> r as int == c as int + 32
    ensures c == KelvinSign ==> r == 'k'
    ensures !('A' <= c <= 'Z') && c != KelvinSign ==> r == c
  {
    if 'A' <= c <= 'Z' then (c as int - 'A' as int + 'a' as int) as char
    else if c == KelvinSign then 'k'
    else c
  }

  /** `s.toLowerCase()`, character by character. */
  function ToLower(s: string): (r: string)
    ensures |r| == |s|
    ensures forall i :: 0 <= i < |r| ==> !('A' <= r[i] <= 'Z') && r[i] != KelvinSign
    ensures forall i :: 0 <= i < |r| ==> r[i] == s[i] || 'A' <= s[i] <= 'Z' || s[i] == KelvinSign
  {
    seq(|s|, i requires 0 <= i < |s| => LowerChar(s[i]))
  }

  /** A command word written with the Kelvin sign lowers to the ASCII name: `S\u212AIP` is `skip`. */
  lemma KelvinLowersToK()
    ensures ToLower(['S', KelvinSign, 'I', 'P']) == "skip"
  {
  }

  // ---------------------------------------------------------------------
  // Decimal text of whole numbers
  // ---------------------------------------------------------------------

  predicate IsDigit(c: char) {
    '0' <= c <= '9'
  }

  function DigitChar(d: nat): (c: char)
    requires d < 10
    ensures IsDigit(c) && c as int - '0' as int == d
  {
    ('0' as int + d) as char
  }

  function DigitValue(c: char): (d: nat)
    requires IsDigit(c)
    ensures d < 10 && DigitChar(d) == c
  {
    c as int - '0' as int
  }

  /** The number a string of decimal digits denotes (most significant digit first). */
  function DigitsValue(s: string): nat
    requires forall i :: 0 <= i < |s| ==> IsDigit(s[i])
    decreases |s|
  {
    if s == [] then 0 else DigitsValue(s[..|s| - 1]) * 10 + DigitValue(s[|s| - 1])
  }

  /** `n.toString()` for a whole number: decimal digits without leading zeros. */
  function NatToString(n: nat): (r: string)
    ensures |r| >= 1
    ensures forall i :: 0 <= i < |r| ==> IsDigit(r[i])
    ensures r[0] == '0' ==> r == "0" && n == 0
    decreases n
  {
    if n < 10 then [DigitChar(n)] else NatToString(n / 10) + [DigitChar(n % 10)]
  }

  /** The digits `NatToString` writes denote the number written. */
  lemma {:induction false} NatToStringValue(n: nat)
    ensures DigitsValue(NatToString(n)) == n
    decreases n
  {
    var r := NatToString(n);
    if n >= 10 {
      NatToStringValue(n / 10);
      assert r[..|r| - 1] == NatToString(n / 10);
    }
  }

  /** `NatToString` is injective: distinct numbers have distinct texts. */
  lemma NatToStringInjective(m: nat, n: nat)
    requires NatToString(m) == NatToString(n)
    ensures m == n
  {
    NatToStringValue(m);
    NatToStringValue(n);
  }

  // ---------------------------------------------------------------------
  // parseInt
  // ---------------------------------------------------------------------

  /** The longest prefix of `s` made of decimal digits. */
  function DigitPrefix(s: string): (r: string)
    ensures |r| <= |s| && r == s[..|r|]
    ensures forall i :: 0 <= i < |r| ==> IsDigit(r[i])
    ensures |r| < |s| ==> !IsDigit(s[|r|])
    decreases |s|
  {
    if |s| > 0 && IsDigit(s[0]) then [s[0]] + DigitPrefix(s[1..]) else []
  }

  predicate IsHexDigit(c: char) {
    IsDigit(c) || ('a' <= c <= 'f') || ('A' <= c <= 'F')
  }

  function HexDigitValue(c: char): (d: nat)
    requires IsHexDigit(c)
    ensures d < 16
  {
    if IsDigit(c) then DigitValue(c)
    else if 'a' <= c <= 'f' then c as int - 'a' as int + 10
    else c as int - 'A' as int + 10
  }

  /** The longest prefix of `s` made of hexadecimal digits. */
  function HexDigitPrefix(s: string): (r: string)
    ensures |r| <= |s| && r == s[..|r|]
    ensures forall i :: 0 <= i < |r| ==> IsHexDigit(r[i])
    ensures |r| < |s| ==> !IsHexDigit(s[|r|])
    decreases |s|
  {
    if |s| > 0 && IsHexDigit(s[0]) then [s[0]] + HexDigitPrefix(s[1..]) else []
  }

  function HexDigitsValue(s: string): nat
    requires forall i :: 0 <= i < |s| ==> IsHexDigit(s[i])
    decreases |s|
  {
    if s == [] then 0 else HexDigitsValue(s[..|s| - 1]) * 16 + HexDigitValue(s[|s| - 1])
  }

  /** The text after leading white space and an optional sign, and whether the sign was `-`. */
  function SignAndBody(s: string): (bool, string) {
    var t := TrimStart(s);
    if |t| > 0 && (t[0] == '-' || t[0] == '+') then (t[0] == '-', t[1..]) else (false, t)
  }

  /** The value of the longest leading run of decimal digits, if there is one. */
  function DecimalMagnitude(body: string): Option<nat> {
    var digits := DigitPrefix(body);
    if digits == [] then None else Some(DigitsValue(digits))
  }

  /** As `DecimalMagnitude`, but a leading `0x`/`0X` selects hexadecimal digits. */
  function AutoMagnitude(body: string): Option<nat> {
    if StartsWith(body, "0x") || StartsWith(body, "0X") then
      var digits := HexDigitPrefix(body[2..]);
      if digits == [] then None else Some(HexDigitsValue(digits))
    else
      DecimalMagnitude(body)
  }

  function ApplySign(negative: bool, magnitude: Option<nat>): Option<int> {
    match magnitude
    case None => None
    case Some(m) => Some(if negative then -(m as int) else m)
  }

  /**
   * `parseInt(s, 10)`: skip leading white space, read an optional sign and the
   * longest run of decimal digits; `None` stands for `NaN` (no digit at all).
   */
  function ParseInt(s: string): Option<int> {
    var sb := SignAndBody(s);
    ApplySign(sb.0, DecimalMagnitude(sb.1))
  }

  /**
   * `parseInt(s)` with no radix: as `ParseInt`, except that a `0x`/`0X` after
   * the sign switches to hexadecimal.
   */
  function ParseIntAuto(s: string): Option<int> {
    var sb := SignAndBody(s);
    ApplySign(sb.0, AutoMagnitude(sb.1))
  }

  /** Text that starts with a digit has no white space or sign to skip. */
  lemma SignAndBodyOfDigit(s: string)
    requires |s| > 0 && IsDigit(s[0])
    ensures SignAndBody(s) == (false, s)
  {
    assert !IsWhiteSpace(s[0]);
  }

  /** The digit run read in front of a non-digit is exactly the digits written. */
  lemma {:induction false} DigitPrefixOfDigits(ds: string, rest: string)
    requires forall i :: 0 <= i < |ds| ==> IsDigit(ds[i])
    requires rest == [] || !IsDigit(rest[0])
    ensures DigitPrefix(ds + rest) == ds
    decreases |ds|
  {
    if ds == [] {
      assert ds + rest == rest;
    } else {
      assert (ds + rest)[1..] == ds[1..] + rest;
      DigitPrefixOfDigits(ds[1..], rest);
      assert [ds[0]] + ds[1..] == ds;
    }
  }

  /** `parseInt(String(n) + rest, 10) === n` whenever `rest` does not continue the digits. */
  lemma ParseIntOfNatText(n: nat, rest: string)
    requires rest == [] || !IsDigit(rest[0])
    ensures ParseInt(NatToString(n) + rest) == Some(n)
  {
    var s := NatToString(n) + rest;
    SignAndBodyOfDigit(s);
    DigitPrefixOfDigits(NatToString(n), rest);
    NatToStringValue(n);
  }

  /** `parseInt(String(n), 10) === n`. */
  lemma ParseIntRoundTrip(n: nat)
    ensures ParseInt(NatToString(n)) == Some(n)
  {
    ParseIntOfNatText(n, "");
    assert NatToString(n) + "" == NatToString(n);
  }

  /**
   * Without a radix the same text parses the same way, unless the number is 0
   * and what follows starts with `x` or `X`.
   */
  lemma ParseIntAutoOfNatText(n: nat, rest: string)
    requires rest == [] || !IsDigit(rest[0])
    requires n == 0 ==> rest == [] || (rest[0] != 'x' && rest[0] != 'X')
    ensures ParseIntAuto(NatToString(n) + rest) == Some(n)
  {
    var s := NatToString(n) + rest;
    ParseIntOfNatText(n, rest);
    SignAndBodyOfDigit(s);
    NoHexMarker(n, rest);
    assert AutoMagnitude(s) == DecimalMagnitude(s);
  }

  /** The text of a number followed by no `x` after a lone `0` does not start with `0x` or `0X`. */
  lemma NoHexMarker(n: nat, rest: string)
    requires n == 0 ==> rest == [] || (rest[0] != 'x' && rest[0] != 'X')
    ensures !StartsWith(NatToString(n) + rest, "0x") && !StartsWith(NatToString(n) + rest, "0X")
  {
    var t := NatToString(n);
    var s := t + rest;
    if |s| >= 2 && s[0] == '0' {
      assert t == "0" && n == 0;
      assert s[1] == rest[0];
      assert s[..2][1] == s[1];
    }
  }

  /** `parseInt("0x1f")` reads hexadecimal, `parseInt("0x1f", 10)` stops at the `x`. */
  lemma RadixDiffers()
    ensures ParseIntAuto("0x1f") == Some(31)
    ensures ParseInt("0x1f") == Some(0)
  {
    var s := "0x1f";
    SignAndBodyOfDigit(s);
    assert StartsWith(s, "0x") by {
      assert s[..2] == "0x";
    }
    assert s[2..] == "1f";
    assert HexDigitPrefix("1f") == "1f" by {
      assert "1f"[1..] == "f";
      assert "f"[1..] == [];
      assert HexDigitPrefix("f") == "f";
    }
    assert HexDigitsValue("1f") == 31 by {
      assert "1f"[..1] == "1";
      assert "1"[..0] == [];
    }
    assert DigitPrefix(s) == "0" by {
      assert s[1..] == "x1f";
      assert DigitPrefix(s[1..]) == [];
    }
    assert DigitsValue("0") == 0 by {
      assert "0"[..0] == [];
    }
  }

  // ---------------------------------------------------------------------
  // Milliseconds as seconds
  // ---------------------------------------------------------------------

  /** The digits after the decimal point of `m / 1000`, trailing zeros dropped. */
  function FractionDigits(m: nat): (f: string)
    requires 0 < m < 1000
  {
    if m % 100 == 0 then [DigitChar(m / 100)]
    else if m % 10 == 0 then [DigitChar(m / 100), DigitChar(m / 10 % 10)]
    else [DigitChar(m / 100), DigitChar(m / 10 % 10), DigitChar(m % 10)]
  }

  function Pow10(k: nat): nat {
    if k == 0 then 1 else 10 * Pow10(k - 1)
  }

  /** `(ms / 1000).toString()` for a whole number of milliseconds. */
  function MillisText(ms: nat): string {
    if ms % 1000 == 0 then NatToString(ms / 1000)
    else NatToString(ms / 1000) + "." + FractionDigits(ms % 1000)
  }

  /**
   * The text denotes `ms / 1000` exactly: whole seconds, then (when there is a
   * remainder) one to three fraction digits, the last not `0`, worth the
   * remaining milliseconds.
   */
  lemma MillisTextExact(ms: nat)
    ensures ms % 1000 == 0 ==> MillisText(ms) == NatToString(ms / 1000)
    ensures ms % 1000 != 0 ==>
      var f := FractionDigits(ms % 1000);
      && MillisText(ms) == NatToString(ms / 1000) + "." + f
      && 1 <= |f| <= 3 && f[|f| - 1] != '0'
      && (forall i :: 0 <= i < |f| ==> IsDigit(f[i]))
      && DigitsValue(f) * Pow10(3 - |f|) == ms % 1000
  {
    if ms % 1000 != 0 {
      FractionDigitsExact(ms % 1000);
    }
  }

  lemma FractionDigitsExact(m: nat)
    requires 0 < m < 1000
    ensures var f := FractionDigits(m);
      && 1 <= |f| <= 3 && f[|f| - 1] != '0'
      && (forall i :: 0 <= i < |f| ==> IsDigit(f[i]))
      && DigitsValue(f) * Pow10(3 - |f|) == m
  {
    var a, b, c := m / 100, m / 10 % 10, m % 10;
    assert m == a * 100 + b * 10 + c;
    if m % 100 == 0 {
      OneDigitValue(a);
      assert Pow10(2) == 100;
    } else if m % 10 == 0 {
      TwoDigitsValue(a, b);
      assert Pow10(1) == 10;
    } else {
      ThreeDigitsValue(a, b, c);
    }
  }

  lemma OneDigitValue(a: nat)
    requires a < 10
    ensures DigitsValue([DigitChar(a)]) == a
  {
    assert [DigitChar(a)][..0] == [];
  }

  lemma TwoDigitsValue(a: nat, b: nat)
    requires a < 10 && b < 10
    ensures DigitsValue([DigitChar(a), DigitChar(b)]) == a * 10 + b
  {
    assert [DigitChar(a), DigitChar(b)][..1] == [DigitChar(a)];
    OneDigitValue(a);
  }

  lemma ThreeDigitsValue(a: nat, b: nat, c: nat)
    requires a < 10 && b < 10 && c < 10
    ensures DigitsValue([DigitChar(a), DigitChar(b), DigitChar(c)]) == a * 100 + b * 10 + c
  {
    assert [DigitChar(a), DigitChar(b), DigitChar(c)][..2] == [DigitChar(a), DigitChar(b)];
    TwoDigitsValue(a, b);
  }

  /** `parseInt((ms / 1000).toString(), 10)` gives back the whole seconds. */
  lemma ParseMillisText(ms: nat)
    ensures ParseInt(MillisText(ms)) == Some(ms / 1000)
  {
    if ms % 1000 == 0 {
      ParseIntRoundTrip(ms / 1000);
    } else {
      var rest := "." + FractionDigits(ms % 1000);
      assert MillisText(ms) == NatToString(ms / 1000) + rest;
      ParseIntOfNatText(ms / 1000, rest);
    }
  }
}
