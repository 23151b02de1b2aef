/** The string operations the system uses when it names states and decodes
    text registers: decimal and hexadecimal rendering of integers (Python's
    `str(n)` and `f"{n:04X}"`), ASCII case mapping (`.lower()`, `.title()`),
    character replacement and Python's `str.strip()`. */
module Text {

  /** The digit characters of bases up to 16, upper case as `X` formats them. */
  const DigitChars: string := "0123456789ABCDEF"


  function DigitValue(c: char): (d: nat)
    ensures d < 16
    ensures c in DigitChars ==> DigitChars[d] == c
  {
    if c == '0' then 0 else if c == '1' then 1 else if c == '2' then 2
    else if c == '3' then 3 else if c == '4' then 4 else if c == '5' then 5
    else if c == '6' then 6 else if c == '7' then 7 else if c == '8' then 8
    else if c == '9' then 9 else if c == 'A' then 10 else if c == 'B' then 11
    else if c == 'C' then 12 else if c == 'D' then 13 else if c == 'E' then 14
    else if c == 'F' then 15 else 0
  }

  /** The digits of `n` in `base`, most significant first, without leading
      zeros ("0" for zero). */
  function ToBase(n: nat, base: nat): (s: string)
    requires 2 <= base <= 16
    ensures |s| >= 1
    ensures forall i :: 0 <= i < |s| ==> s[i] in DigitChars[..base]
    ensures n > 0 ==> s[0] != '0'
    decreases n
  {
    if n < base then [DigitChars[n]]
    else
      DivMod(n, base);
      ToBase(n / base, base) + [DigitChars[n % base]]
  }

  lemma DivMod(n: nat, base: nat)
    requires 2 <= base <= 16 && n >= base
    ensures 0 < n / base < n && 0 <= n % base < base
    ensures n == n / base * base + n % base
  {
  }

  /** The number a digit string denotes in `base`. */
  function ValueInBase(s: string, base: nat): nat
    requires 2 <= base <= 16
  {
    if |s| == 0 then 0
    else ValueInBase(s[..|s| - 1], base) * base + DigitValue(s[|s| - 1])
  }

  lemma DigitRoundTrip(d: nat)
    requires d < 16
    ensures DigitValue(DigitChars[d]) == d
  {
  }

  /** Reading back the rendered digits gives the number. */
  lemma {:induction false} ToBaseRoundTrip(n: nat, base: nat)
    requires 2 <= base <= 16
    ensures ValueInBase(ToBase(n, base), base) == n
    decreases n
  {
    var s := ToBase(n, base);
    if n < base {
      DigitRoundTrip(n);
      assert s[..|s| - 1] == [];
    } else {
      DivMod(n, base);
      ToBaseRoundTrip(n / base, base);
      var p := ToBase(n / base, base);
      assert s[..|s| - 1] == p;
      DigitRoundTrip(n % base);
    }
  }

  /** Python's `str(i)` for an integer. */
  function IntToDecimal(i: int): (s: string)
    ensures i >= 0 ==> s == ToBase(i, 10)
    ensures i < 0 ==> s == "-" + ToBase(-i, 10)
  {
    if i >= 0 then ToBase(i, 10) else "-" + ToBase(-i, 10)
  }

  /** Different integers print differently. */
  lemma IntToDecimalInjective(a: int, b: int)
    requires IntToDecimal(a) == IntToDecimal(b)
    ensures a == b
  {
    if a >= 0 && b >= 0 {
      ToBaseRoundTrip(a, 10);
      ToBaseRoundTrip(b, 10);
    } else if a < 0 && b < 0 {
      assert IntToDecimal(a)[1..] == ToBase(-a, 10);
      assert IntToDecimal(b)[1..] == ToBase(-b, 10);
      ToBaseRoundTrip(-a, 10);
      ToBaseRoundTrip(-b, 10);
    }
  }

  /** `s` padded on the left with `c` up to `width` characters. */
  function PadLeft(s: string, width: nat, c: char): (r: string)
    ensures |r| == if |s| >= width then |s| else width
    ensures r[|r| - |s|..] == s
    ensures forall i :: 0 <= i < |r| - |s| ==> r[i] == c
  {
    if |s| >= width then s else seq(width - |s|, _ => c) + s
  }

  /** Python's `f"{n:04X}"`: upper-case hexadecimal, zero-padded to four
      characters; a minus sign counts towards the width. */
  function Hex04(n: int): (s: string)
    ensures n >= 0 ==> s == PadLeft(ToBase(n, 16), 4, '0')
    ensures n < 0 ==> s == "-" + PadLeft(ToBase(-n, 16), 3, '0')
    ensures |s| >= 4
  {
    if n >= 0 then PadLeft(ToBase(n, 16), 4, '0')
    else "-" + PadLeft(ToBase(-n, 16), 3, '0')
  }

  predicate IsUpper(c: char) { 'A' <= c <= 'Z' }
  predicate IsLower(c: char) { 'a' <= c <= 'z' }
  predicate IsLetter(c: char) { IsUpper(c) || IsLower(c) }

  function ToUpper(c: char): (r: char)
    ensures IsLower(c) ==> IsUpper(r)
    ensures !IsLower(c) ==> r == c
  {
    if IsLower(c) then (c as int - 32) as char else c
  }

  function ToLower(c: char): (r: char)
    ensures IsUpper(c) ==> IsLower(r)
    ensures !IsUpper(c) ==> r == c
  {
    if IsUpper(c) then (c as int + 32) as char else c
  }

  /** `.lower()` on ASCII text. */
  function Lower(s: string): (r: string)
    ensures |r| == |s|
    ensures forall i :: 0 <= i < |s| ==> r[i] == ToLower(s[i])
    ensures forall i :: 0 <= i < |s| ==> !IsUpper(r[i])
  {
    if |s| == 0 then [] else [ToLower(s[0])] + Lower(s[1..])
  }

  /** `.title()` on ASCII text, where `prevLetter` says whether the character
      before `s` was a letter. */
  function TitleFrom(s: string, prevLetter: bool): (r: string)
    ensures |r| == |s|
  {
    if |s| == 0 then []
    else
      var c := s[0];
      var head := if !IsLetter(c) then c else if prevLetter then ToLower(c) else ToUpper(c);
      [head] + TitleFrom(s[1..], IsLetter(c))
  }

  /** What `TitleFrom` does to each character: non-letters are kept, a
      letter after a letter is lowered, any other letter is raised. */
  lemma {:induction false} TitleFromChars(s: string, prevLetter: bool)
    ensures var r := TitleFrom(s, prevLetter);
      && (forall i :: 0 <= i < |s| && !IsLetter(s[i]) ==> r[i] == s[i])
      && (|s| > 0 && IsLetter(s[0]) ==>
            r[0] == if prevLetter then ToLower(s[0]) else ToUpper(s[0]))
      && (forall i :: 0 < i < |s| && IsLetter(s[i]) && IsLetter(s[i - 1]) ==> r[i] == ToLower(s[i]))
      && (forall i :: 0 < i < |s| && IsLetter(s[i]) && !IsLetter(s[i - 1]) ==> r[i] == ToUpper(s[i]))
    decreases |s|
  {
    if |s| > 0 {
      var r := TitleFrom(s, prevLetter);
      var t := TitleFrom(s[1..], IsLetter(s[0]));
      TitleFromChars(s[1..], IsLetter(s[0]));
      assert r[1..] == t;
      forall i | 0 < i < |s|
        ensures r[i] == t[i - 1] && s[i] == s[1..][i - 1]
      {
      }
    }
  }

  /** Python's `.title()` on ASCII text. */
  function Title(s: string): (r: string)
    ensures |r| == |s|
  {
    TitleFrom(s, false)
  }

  /** The first letter of every run of letters in `.title()` is upper case
      and the rest lower case; other characters are unchanged. */
  lemma TitleChars(s: string)
    ensures var r := Title(s);
      && (forall i :: 0 <= i < |s| && !IsLetter(s[i]) ==> r[i] == s[i])
      && (forall i :: 0 <= i < |s| && IsLetter(s[i]) && (i == 0 || !IsLetter(s[i - 1])) ==>
            r[i] == ToUpper(s[i]))
      && (forall i :: 0 < i < |s| && IsLetter(s[i]) && IsLetter(s[i - 1]) ==> r[i] == ToLower(s[i]))
  {
    TitleFromChars(s, false);
  }

  /** `s.replace(a, b)` for single characters. */
  function ReplaceChar(s: string, a: char, b: char): (r: string)
    ensures |r| == |s|
    ensures forall i :: 0 <= i < |s| ==> r[i] == if s[i] == a then b else s[i]
  {
    if |s| == 0 then [] else [if s[0] == a then b else s[0]] + ReplaceChar(s[1..], a, b)
  }

  /** The characters Python's `str.isspace()` accepts. */
  predicate IsSpace(c: char)
  {
    var n := c as int;
    || (9 <= n <= 13) || (28 <= n <= 32) || n == 133 || n == 160 || n == 0x1680
    || (0x2000 <= n <= 0x200A) || n == 0x2028 || n == 0x2029 || n == 0x202F || n == 0x205F
    || n == 0x3000
  }

  function StripLeft(s: string): (r: string)
    ensures |r| <= |s| && r == s[|s| - |r|..]
    ensures forall i :: 0 <= i < |s| - |r| ==> IsSpace(s[i])
    ensures |r| > 0 ==> !IsSpace(r[0])
  {
    if |s| > 0 && IsSpace(s[0]) then StripLeft(s[1..]) else s
  }

  function StripRight(s: string): (r: string)
    ensures |r| <= |s| && r == s[..|r|]
    ensures forall i :: |r| <= i < |s| ==> IsSpace(s[i])
    ensures |r| > 0 ==> !IsSpace(r[|r| - 1])
  {
    if |s| > 0 && IsSpace(s[|s| - 1]) then StripRight(s[..|s| - 1]) else s
  }

  /** Python's `str.strip()`: a result that neither starts nor ends with
      whitespace; `StripRemovesOnlySpace` shows that it is what remains of
      `s` after removing a whitespace prefix and suffix. */
  function Strip(s: string): (r: string)
    ensures |r| <= |s|
    ensures |r| > 0 ==> !IsSpace(r[0]) && !IsSpace(r[|r| - 1])
    ensures (forall k :: 0 <= k < |s| ==> IsSpace(s[k])) ==> r == []
    ensures forall k :: 0 <= k < |r| ==> r[k] in s
  {
    var l := StripLeft(s);
    var r := StripRight(l);
    StripShape(s, l, r);
    r
  }

  /** Everything of `s` before `i` and from `j` on is whitespace. */
  predicate SpaceOutside(s: string, i: int, j: int)
    requires 0 <= i <= j <= |s|
  {
    && (forall k :: 0 <= k < i ==> IsSpace(s[k]))
    && (forall k :: j <= k < |s| ==> IsSpace(s[k]))
  }

  /** The stripped text is a slice of `s` with only whitespace before and
      after it. */
  lemma StripRemovesOnlySpace(s: string)
    ensures exists i, j :: 0 <= i <= j <= |s| && Strip(s) == s[i..j] && SpaceOutside(s, i, j)
  {
    var l := StripLeft(s);
    var r := StripRight(l);
    var i := |s| - |l|;
    var j := i + |r|;
    assert 0 <= i <= j <= |s| && Strip(s) == s[i..j] && SpaceOutside(s, i, j) by {
      StripShape(s, l, r);
      assert Strip(s) == r;
    }
  }

  /** Removing a whitespace prefix and then a whitespace suffix leaves a
      slice of the original between a whitespace prefix and suffix. */
  lemma StripShape(s: string, l: string, r: string)
    requires |l| <= |s| && l == s[|s| - |l|..] && forall k :: 0 <= k < |s| - |l| ==> IsSpace(s[k])
    requires |l| > 0 ==> !IsSpace(l[0])
    requires |r| <= |l| && r == l[..|r|] && forall k :: |r| <= k < |l| ==> IsSpace(l[k])
    requires |r| > 0 ==> !IsSpace(r[|r| - 1])
    ensures |l| <= |s| && |r| <= |l| && r == s[|s| - |l|..|s| - |l| + |r|]
    ensures SpaceOutside(s, |s| - |l|, |s| - |l| + |r|)
    ensures |r| > 0 ==> !IsSpace(r[0]) && !IsSpace(r[|r| - 1])
    ensures (forall k :: 0 <= k < |s| ==> IsSpace(s[k])) ==> r == []
  {
    var i := |s| - |l|;
    assert l == s[i..];
    assert r == l[..|r|];
    forall k | i + |r| <= k < |s|
      ensures IsSpace(s[k])
    {
      assert s[k] == l[k - i];
    }
    if |r| > 0 {
      assert r[0] == l[0];
    }
  }
}
