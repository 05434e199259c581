/** Strings as the browser code treats them: white space, trimming, ASCII case,
    the decimal rendering of integers (Number.prototype.toString and padStart)
    and the decimal prefix that parseInt reads. */
module Text {
  import opened Optional

  /** The code points JavaScript treats as white space in `trim()` and in `\s`
      (WhiteSpace and LineTerminator). */
  predicate IsSpace(c: char) {
    || c == ' ' || c == '\t' || c == '\n' || c == '\U{0B}' || c == '\U{0C}' || c == '\r'
    || c == '\U{A0}' || c == '\U{1680}' || ('\U{2000}' <= c <= '\U{200A}')
    || c == '\U{2028}' || c == '\U{2029}' || c == '\U{202F}' || c == '\U{205F}'
    || c == '\U{3000}' || c == '\U{FEFF}'
  }

  /** Every character is white space (the empty string included). */
  predicate IsBlank(s: string) {
    forall i :: 0 <= i < |s| ==> IsSpace(s[i])
  }

  /** `length` of a JavaScript string: its UTF-16 code units, two for a code
      point above U+FFFF (a surrogate pair) and one for any other. */
  function CodeUnits(s: string): (n: nat)
    ensures |s| <= n <= 2 * |s|
  {
    if s == [] then 0 else (if s[0] >= '\U{10000}' then 2 else 1) + CodeUnits(s[1..])
  }

  /** Lengths add up over a concatenation. */
  lemma {:induction false} CodeUnitsConcat(a: string, b: string)
    ensures CodeUnits(a + b) == CodeUnits(a) + CodeUnits(b)
  {
    if a == [] {
      assert a + b == b;
    } else {
      assert (a + b)[1..] == a[1..] + b;
      CodeUnitsConcat(a[1..], b);
    }
  }

  /** Within the Basic Multilingual Plane the length is the number of
      characters. */
  lemma {:induction false} CodeUnitsBmp(s: string)
    requires forall i :: 0 <= i < |s| ==> s[i] < '\U{10000}'
    ensures CodeUnits(s) == |s|
  {
    if s != [] {
      assert forall i :: 0 <= i < |s[1..]| ==> s[1..][i] == s[i + 1];
      CodeUnitsBmp(s[1..]);
    }
  }

  function TrimStart(s: string): (r: string)
    ensures |r| <= |s| && r == s[|s| - |r|..]
    ensures r == [] || !IsSpace(r[0])
    ensures forall i :: 0 <= i < |s| - |r| ==> IsSpace(s[i])
  {
    if s != [] && IsSpace(s[0]) then TrimStart(s[1..]) else s
  }

  function TrimEnd(s: string): (r: string)
    ensures |r| <= |s| && r == s[..|r|]
    ensures r == [] || !IsSpace(r[|r| - 1])
    ensures forall i :: |r| <= i < |s| ==> IsSpace(s[i])
  {
    if s != [] && IsSpace(s[|s| - 1]) then TrimEnd(s[..|s| - 1]) else s
  }

  /** String.prototype.trim: the infix left once the white space at both ends
      is cut off, so it neither starts nor ends with white space. */
  function Trim(s: string): (r: string)
    ensures |r| <= |s|
    ensures r == [] || (!IsSpace(r[0]) && !IsSpace(r[|r| - 1]))
    ensures r == [] <==> IsBlank(s)
  {
    var t := TrimStart(s);
    var r := TrimEnd(t);
    assert r != [] ==> r[0] == t[0];
    assert r == [] ==> IsBlank(s) by {
      if r == [] {
        assert t == [];
      }
    }
    assert r != [] ==> !IsBlank(s) by {
      if r != [] { assert s[|s| - |t|] == r[0]; }
    }
    r
  }

  /** The trimmed text is the infix between a blank prefix and a blank
      suffix of the input. */
  lemma TrimInfix(s: string)
    ensures var r := Trim(s);
      exists i :: 0 <= i <= |s| - |r| && r == s[i..i + |r|] && IsBlank(s[..i]) && IsBlank(s[i + |r|..])
  {
    var k := TrimCut(s);
  }

  /** Where the trimmed text starts in the input. */
  lemma TrimCut(s: string) returns (k: nat)
    ensures var r := Trim(s);
      k + |r| <= |s| && r == s[k..k + |r|] && IsBlank(s[..k]) && IsBlank(s[k + |r|..])
  {
    var t := TrimStart(s);
    var r := TrimEnd(t);
    k := |s| - |t|;
    BlankLead(s);
    BlankTrail(t);
    assert s[k + |r|..] == t[|r|..];
    assert r == s[k..k + |r|];
  }

  lemma BlankLead(s: string)
    ensures IsBlank(s[..|s| - |TrimStart(s)|])
  {
  }

  lemma BlankTrail(t: string)
    ensures IsBlank(t[|TrimEnd(t)|..])
  {
    var u := t[|TrimEnd(t)|..];
    forall j | 0 <= j < |u| ensures IsSpace(u[j]) {
      assert u[j] == t[|TrimEnd(t)| + j];
    }
  }

  /** Any infix between a blank prefix and a blank suffix that neither starts
      nor ends with white space is the trimmed text: the two ends are cut at
      the first and the last character that is not white space. */
  lemma TrimUnique(s: string, i: nat, j: nat)
    requires i <= j <= |s| && IsBlank(s[..i]) && IsBlank(s[j..])
    requires i < j ==> !IsSpace(s[i]) && !IsSpace(s[j - 1])
    ensures Trim(s) == s[i..j]
  {
    if i == j {
      BlankMargins(s, i);
    } else {
      NotBlankAt(s, i);
      var k := TrimCut(s);
      CutUnique(s, i, j, k, Trim(s));
    }
  }

  /** A non-empty infix with blank margins and non-blank ends is fixed by them. */
  lemma CutUnique(s: string, i: nat, j: nat, k: nat, r: string)
    requires i < j <= |s| && IsBlank(s[..i]) && IsBlank(s[j..]) && !IsSpace(s[i]) && !IsSpace(s[j - 1])
    requires r != [] && k + |r| <= |s| && r == s[k..k + |r|] && IsBlank(s[..k]) && IsBlank(s[k + |r|..])
    requires !IsSpace(r[0]) && !IsSpace(r[|r| - 1])
    ensures r == s[i..j]
  {
    InfixEnds(s, k, r);
    SameCut(s, i, j, k, k + |r|);
  }

  lemma InfixEnds(s: string, k: nat, r: string)
    requires r != [] && k + |r| <= |s| && r == s[k..k + |r|]
    ensures s[k] == r[0] && s[k + |r| - 1] == r[|r| - 1]
  {
  }

  lemma NotBlankAt(s: string, i: nat)
    requires i < |s| && !IsSpace(s[i])
    ensures !IsBlank(s)
  {
  }

  /** A string whose text before and from `i` is blank is blank. */
  lemma BlankMargins(s: string, i: nat)
    requires i <= |s| && IsBlank(s[..i]) && IsBlank(s[i..])
    ensures IsBlank(s)
  {
    assert s == s[..i] + s[i..];
  }

  /** Two cuts with blank margins and non-blank ends coincide. */
  lemma SameCut(s: string, i: nat, j: nat, k: nat, l: nat)
    requires i < j <= |s| && k < l <= |s|
    requires IsBlank(s[..i]) && IsBlank(s[j..]) && IsBlank(s[..k]) && IsBlank(s[l..])
    requires !IsSpace(s[i]) && !IsSpace(s[j - 1]) && !IsSpace(s[k]) && !IsSpace(s[l - 1])
    ensures i == k && j == l
  {
    SameStart(s, i, k);
    SameEnd(s, j, l);
  }

  lemma SameStart(s: string, i: nat, k: nat)
    requires i < |s| && k < |s| && IsBlank(s[..i]) && IsBlank(s[..k]) && !IsSpace(s[i]) && !IsSpace(s[k])
    ensures i == k
  {

  }

  lemma SameEnd(s: string, j: nat, l: nat)
    requires 0 < j <= |s| && 0 < l <= |s| && IsBlank(s[j..]) && IsBlank(s[l..]) && !IsSpace(s[j - 1]) && !IsSpace(s[l - 1])
    ensures j == l
  {

  }

  /** Trimming a trimmed string changes nothing. */
  lemma TrimIdempotent(s: string)
    ensures Trim(Trim(s)) == Trim(s)
  {
    var r := Trim(s);
    if r != [] {
      assert TrimStart(r) == r;
      assert TrimEnd(r) == r;
    }
  }

  function LowerChar(c: char): char {
    if 'A' <= c <= 'Z' then (c as int + 32) as char else c
  }

  /** String.prototype.toLowerCase restricted to ASCII letters. Comparisons in this
      model are only ever against ASCII literals, which no other character lowers to
      except the Kelvin sign (lowering to 'k', a letter none of those literals holds). */
  function ToLower(s: string): (r: string)
    ensures |r| == |s|
    ensures forall i :: 0 <= i < |s| ==> r[i] == LowerChar(s[i])
  {
    seq(|s|, i requires 0 <= i < |s| => LowerChar(s[i]))
  }

  lemma ToLowerIdempotent(s: string)
    ensures ToLower(ToLower(s)) == ToLower(s)
  {
    assert forall i :: 0 <= i < |s| ==> LowerChar(LowerChar(s[i])) == LowerChar(s[i]);
  }

  predicate IsDigit(c: char) { '0' <= c <= '9' }
  predicate IsAsciiUpper(c: char) { 'A' <= c <= 'Z' }
  predicate IsAsciiLetter(c: char) { 'A' <= c <= 'Z' || 'a' <= c <= 'z' }

  predicate AllDigits(s: string) { forall i :: 0 <= i < |s| ==> IsDigit(s[i]) }

  function DigitChar(d: nat): (c: char)
    requires d < 10
    ensures IsDigit(c) && c as int - '0' as int == d
  {
    ('0' as int + d) as char
  }

  function DigitValue(c: char): nat
    requires IsDigit(c)
  {
    c as int - '0' as int
  }

  /** The value of a string of decimal digits, most significant first. */
  function DigitsValue(s: string): nat
    requires AllDigits(s)
  {
    if s == [] then 0 else 10 * DigitsValue(s[..|s| - 1]) + DigitValue(s[|s| - 1])
  }

  /** Number.prototype.toString of a non-negative integer. */
  function NatToString(n: nat): (r: string)
    ensures |r| >= 1 && AllDigits(r)
    ensures r[0] == '0' ==> n == 0
  {
    if n < 10 then [DigitChar(n)] else NatToString(n / 10) + [DigitChar(n % 10)]
  }

  /** Number.prototype.toString of an integer: a minus sign, then the digits. */
  function IntToString(n: int): (r: string)
    ensures |r| >= 1
  {
    if n < 0 then "-" + NatToString(-n) else NatToString(n)
  }

  lemma {:induction false} NatToStringValue(n: nat)
    ensures DigitsValue(NatToString(n)) == n
  {
    var r := NatToString(n);
    if n >= 10 {
      NatToStringValue(n / 10);
      assert r[..|r| - 1] == NatToString(n / 10);
    }
  }

  /** String.prototype.padStart(2, "0"). */
  function PadStart2(s: string): (r: string)
    ensures |r| == if |s| >= 2 then |s| else 2
    ensures r[|r| - |s|..] == s
    ensures forall i :: 0 <= i < |r| - |s| ==> r[i] == '0'
  {
    if |s| >= 2 then s else seq(2 - |s|, _ => '0') + s
  }

  /** The longest prefix of decimal digits. */
  function DigitPrefix(s: string): (r: string)
    ensures |r| <= |s| && r == s[..|r|] && AllDigits(r)
    ensures |r| < |s| ==> !IsDigit(s[|r|])
  {
    if s != [] && IsDigit(s[0]) then [s[0]] + DigitPrefix(s[1..]) else []
  }

  lemma {:induction false} DigitPrefixOfDigits(s: string)
    requires AllDigits(s)
    ensures DigitPrefix(s) == s
  {
    if s != [] { DigitPrefixOfDigits(s[1..]); }
  }

  /** parseInt(s) for the strings a number input can hold: leading white space,
      an optional sign, then the decimal digits up to the first non-digit; None
      is NaN (no digit at all). */
  function ParseInt(s: string): (r: Option<int>)
    ensures r.Some? <==> DigitPrefix(SignStripped(TrimStart(s))) != []
  {
    var t := TrimStart(s);
    var negative := t != [] && t[0] == '-';
    var digits := DigitPrefix(SignStripped(t));
    if digits == [] then None
    else if negative then Some(-(DigitsValue(digits) as int))
    else Some(DigitsValue(digits))
  }

  function SignStripped(t: string): string {
    if t != [] && (t[0] == '-' || t[0] == '+') then t[1..] else t
  }

  /** parseInt stops at the first character that is not a digit. */
  lemma {:induction false} DigitPrefixStops(digits: string, suffix: string)
    requires AllDigits(digits) && (suffix == [] || !IsDigit(suffix[0]))
    ensures DigitPrefix(digits + suffix) == digits
  {
    if digits != [] {
      assert (digits + suffix)[1..] == digits[1..] + suffix;
      DigitPrefixStops(digits[1..], suffix);
    } else {
      assert digits + suffix == suffix;
    }
  }

  /** parseInt of digits followed by text that does not start with a digit. */
  lemma ParseIntDigits(digits: string, suffix: string)
    requires digits != [] && AllDigits(digits) && (suffix == [] || !IsDigit(suffix[0]))
    ensures ParseInt(digits + suffix) == Some(DigitsValue(digits))
  {
    var s := digits + suffix;
    assert IsDigit(s[0]);
    assert TrimStart(s) == s;
    assert SignStripped(s) == s;
    DigitPrefixStops(digits, suffix);
  }

  /** The same after a minus sign, for a printed natural number. */
  lemma ParseIntNegated(m: nat, suffix: string)
    requires suffix == [] || !IsDigit(suffix[0])
    ensures ParseInt("-" + (NatToString(m) + suffix)) == Some(-(m as int))
  {
    var digits := NatToString(m);
    NatToStringValue(m);
    var s := "-" + (digits + suffix);
    assert TrimStart(s) == s;
    assert SignStripped(s) == digits + suffix;
    DigitPrefixStops(digits, suffix);
  }

  lemma NegativeText(n: int, suffix: string)
    requires n < 0
    ensures IntToString(n) + suffix == "-" + (NatToString(-n) + suffix)
  {
  }

  /** Printing an integer, appending text that does not start with a digit, and
      reading the result with parseInt gives the integer. */
  lemma ParseIntWithSuffix(n: int, suffix: string)
    requires suffix == [] || !IsDigit(suffix[0])
    ensures ParseInt(IntToString(n) + suffix) == Some(n)
  {
    if n < 0 {
      ParseIntNegated(-n, suffix);
      NegativeText(n, suffix);
    } else {
      NatToStringValue(n);
      ParseIntDigits(NatToString(n), suffix);
    }
  }

  /** Printing an integer and reading it back with parseInt gives the integer. */
  lemma ParseIntOfIntToString(n: int)
    ensures ParseInt(IntToString(n)) == Some(n)
  {
    ParseIntWithSuffix(n, []);
    assert IntToString(n) + [] == IntToString(n);
  }

  /** A leading zero does not change the value of a digit string. */
  lemma {:induction false} LeadingZeroValue(s: string)
    requires AllDigits(s)
    ensures AllDigits("0" + s) && DigitsValue("0" + s) == DigitsValue(s)
  {
    var t := "0" + s;
    if s == [] {
      assert t[..0] == [];
    } else {
      assert t[..|t| - 1] == "0" + s[..|s| - 1];
      LeadingZeroValue(s[..|s| - 1]);
    }
  }

  /** `n.toString().padStart(2, "0")` for a natural number: at least two
      digits, exactly two below 100, and its value is `n`. */
  lemma PaddedValue(n: nat)
    ensures AllDigits(PadStart2(NatToString(n)))
    ensures DigitsValue(PadStart2(NatToString(n))) == n
    ensures n < 100 ==> |PadStart2(NatToString(n))| == 2
  {
    NatToStringValue(n);
    var s := NatToString(n);
    if n >= 10 {
      assert |NatToString(n / 10)| >= 1;
    }
    if |s| < 2 {
      assert PadStart2(s) == "0" + s;
      LeadingZeroValue(s);
    }
  }

  /** Lexicographic code-point order. It agrees with the code-unit order of
      `<` on strings except between characters above U+FFFF and those from
      U+E000 to U+FFFF, and, for the zero-padded "HH:MM" strings of the
      timetable, with localeCompare too. */
  predicate StrLe(a: string, b: string) {
    a == [] || (b != [] && (a[0] < b[0] || (a[0] == b[0] && StrLe(a[1..], b[1..]))))
  }

  lemma {:induction false} StrLeTotal(a: string, b: string)
    ensures StrLe(a, b) || StrLe(b, a)
  {
    if a != [] && b != [] && a[0] == b[0] { StrLeTotal(a[1..], b[1..]); }
  }

  lemma {:induction false} StrLeTransitive(a: string, b: string, c: string)
    requires StrLe(a, b) && StrLe(b, c)
    ensures StrLe(a, c)
  {
    if a != [] && b != [] && c != [] && a[0] == b[0] && b[0] == c[0] {
      StrLeTransitive(a[1..], b[1..], c[1..]);
    }
  }

  lemma {:induction false} StrLeAntisymmetric(a: string, b: string)
    requires StrLe(a, b) && StrLe(b, a)
    ensures a == b
  {
    if a != [] && b != [] {
      StrLeAntisymmetric(a[1..], b[1..]);
      assert a == [a[0]] + a[1..] && b == [b[0]] + b[1..];
    }
  }
}
