/** String helpers with the meaning JavaScript gives them in the app:
    ASCII case mapping, `includes`, `split('.')`/`join`, decimal
    formatting, `padStart`, `parseInt`, `parseFloat` and the
    `\S+@\S+\.\S+` email test used by the sign-up and log-in forms. */
module Text {

  // ---------------------------------------------------------------- case

  function LowerChar(c: char): char {
    if 'A' <= c <= 'Z' then (c as int + 32) as char else c
  }

  function UpperChar(c: char): char {
    if 'a' <= c <= 'z' then (c as int - 32) as char else c
  }

  /** `toLowerCase`, restricted to the ASCII letters. */
  function ToLower(s: string): (r: string)
    ensures |r| == |s|
    ensures forall i :: 0 <= i < |s| ==> r[i] == LowerChar(s[i])
  {
    seq(|s|, i requires 0 <= i < |s| => LowerChar(s[i]))
  }

  lemma ToLowerIdempotent(s: string)
    ensures ToLower(ToLower(s)) == ToLower(s)
  {
    assert forall i :: 0 <= i < |s| ==> LowerChar(LowerChar(s[i])) == LowerChar(s[i]);
  }

  // ---------------------------------------------------------- substrings

  /** `s.includes(q)`: q occurs in s at some offset (the empty string occurs everywhere). */
  predicate Includes(s: string, q: string) {
    exists i | 0 <= i <= |s| - |q| :: OccursAt(s, q, i)
  }

  /** q is the slice of s that starts at i. */
  predicate OccursAt(s: string, q: string, i: int) {
    0 <= i <= |s| - |q| && s[i..i + |q|] == q
  }

  lemma EmptyIncluded(s: string)
    ensures Includes(s, "")
  {
    assert OccursAt(s, "", 0);
  }

  // ------------------------------------------------------- split / join

  /** `s.split(sep)` for a one-character separator: "a..b" gives ["a", "", "b"], "" gives [""]. */
  function Split(s: string, sep: char): (r: seq<string>)
    ensures |r| >= 1
    decreases |s|
  {
    if |s| == 0 then [""]
    else
      var rest := Split(s[1..], sep);
      if s[0] == sep then [""] + rest else [[s[0]] + rest[0]] + rest[1..]
  }

  /** `parts.join(sep)`. */
  function Join(parts: seq<string>, sep: char): string {
    if |parts| == 0 then ""
    else if |parts| == 1 then parts[0]
    else parts[0] + [sep] + Join(parts[1..], sep)
  }

  lemma {:induction false} SplitFree(w: string, sep: char)
    requires sep !in w
    ensures Split(w, sep) == [w]
    decreases |w|
  {
    if |w| > 0 {
      SplitFree(w[1..], sep);
      assert [w[0]] + w[1..] == w;
    }
  }

  lemma {:induction false} SplitAtSeparator(w: string, sep: char, t: string)
    requires sep !in w
    ensures Split(w + [sep] + t, sep) == [w] + Split(t, sep)
    decreases |w|
  {
    if |w| == 0 {
      assert w + [sep] + t == [sep] + t;
      assert ([sep] + t)[1..] == t;
    } else {
      var s := w + [sep] + t;
      assert s[1..] == w[1..] + [sep] + t;
      SplitAtSeparator(w[1..], sep, t);
      assert [w[0]] + w[1..] == w;
    }
  }

  /** Splitting a joined path gives back its segments when no segment holds the separator. */
  lemma {:induction false} SplitJoin(parts: seq<string>, sep: char)
    requires |parts| >= 1
    requires forall i :: 0 <= i < |parts| ==> sep !in parts[i]
    ensures Split(Join(parts, sep), sep) == parts
    decreases |parts|
  {
    if |parts| == 1 {
      SplitFree(parts[0], sep);
    } else {
      SplitJoin(parts[1..], sep);
      SplitAtSeparator(parts[0], sep, Join(parts[1..], sep));
      assert [parts[0]] + parts[1..] == parts;
    }
  }

  /** Splitting "a<sep>b" gives back a and b when neither holds the separator. */
  lemma SplitTwo(a: string, b: string, sep: char)
    requires sep !in a && sep !in b
    ensures Split(a + [sep] + b, sep) == [a, b]
  {
    SplitAtSeparator(a, sep, b);
    SplitFree(b, sep);
  }

  /** Splitting "a<sep>b<sep>c" gives back a, b and c when none holds the separator. */
  lemma SplitThree(a: string, b: string, c: string, sep: char)
    requires sep !in a && sep !in b && sep !in c
    ensures Split(a + [sep] + b + [sep] + c, sep) == [a, b, c]
  {
    assert a + [sep] + b + [sep] + c == a + [sep] + (b + [sep] + c);
    SplitAtSeparator(a, sep, b + [sep] + c);
    SplitTwo(b, c, sep);
  }

  // ------------------------------------------------------------ numbers

  predicate IsDigit(c: char) { '0' <= c <= '9' }

  function DigitValue(c: char): nat
    requires IsDigit(c)
  {
    c as int - '0' as int
  }

  function DigitChar(d: nat): (c: char)
    requires d < 10
    ensures IsDigit(c) && DigitValue(c) == d
  {
    ('0' as int + d) as char
  }

  /** `s.length` in JavaScript: the number of UTF-16 code units, two for each character outside
      the Basic Multilingual Plane and one for every other. */
  function Utf16Length(s: string): (n: nat)
    ensures |s| <= n <= 2 * |s|
    ensures n == 0 <==> s == ""
  {
    if |s| == 0 then 0
    else Utf16Length(s[..|s| - 1]) + (if s[|s| - 1] as int >= 0x1_0000 then 2 else 1)
  }

  /** Text made of Basic Multilingual Plane characters only has one code unit per character. */
  lemma {:induction false} Utf16LengthOfBmp(s: string)
    requires forall i :: 0 <= i < |s| ==> (s[i] as int) < 0x1_0000
    ensures Utf16Length(s) == |s|
  {
    if |s| > 0 {
      Utf16LengthOfBmp(s[..|s| - 1]);
    }
  }

  /** Decimal text of a natural number, without leading zeros. */
  function NatToString(n: nat): (r: string)
    ensures |r| >= 1
    ensures forall i :: 0 <= i < |r| ==> IsDigit(r[i])
  {
    if n < 10 then [DigitChar(n)] else NatToString(n / 10) + [DigitChar(n % 10)]
  }

  /** Decimal text of an integer, as a template literal prints it. */
  function IntToString(n: int): string {
    if n < 0 then "-" + NatToString(-n) else NatToString(n)
  }

  predicate AllDigits(s: string) {
    forall i :: 0 <= i < |s| ==> IsDigit(s[i])
  }

  /** Value of a string of decimal digits (the empty string reads as 0). */
  function DigitsValue(s: string): nat
    requires AllDigits(s)
  {
    if |s| == 0 then 0 else 10 * DigitsValue(s[..|s| - 1]) + DigitValue(s[|s| - 1])
  }

  lemma {:induction false} DigitsOfNat(n: nat)
    ensures DigitsValue(NatToString(n)) == n
  {
    var r := NatToString(n);
    if n >= 10 {
      DigitsOfNat(n / 10);
      assert r[..|r| - 1] == NatToString(n / 10);
    }
  }

  /** `str.padStart(width, c)`. */
  function PadStart(s: string, width: nat, c: char): (r: string)
    ensures |r| == if |s| >= width then |s| else width
  {
    if |s| >= width then s else seq(width - |s|, i => c) + s
  }

  /** The padded text ends with s and is filled with c before it. */
  lemma PadStartShape(s: string, width: nat, c: char)
    ensures var r := PadStart(s, width, c);
            r[|r| - |s|..] == s && forall i :: 0 <= i < |r| - |s| ==> r[i] == c
  {
    var r := PadStart(s, width, c);
    if |s| < width {
      assert r == seq(width - |s|, i => c) + s;
      assert r[|r| - |s|..] == s;
    }
  }

  lemma {:induction false} LeadingZerosIgnored(z: nat, s: string)
    requires AllDigits(s)
    ensures AllDigits(seq(z, i => '0') + s)
    ensures DigitsValue(seq(z, i => '0') + s) == DigitsValue(s)
    decreases z
  {
    var t := seq(z, i => '0') + s;
    if z > 0 {
      assert t == "0" + (seq(z - 1, i => '0') + s);
      LeadingZerosIgnored(z - 1, s);
      LeadingZeroIgnored(seq(z - 1, i => '0') + s);
    } else {
      assert t == s;
    }
  }

  lemma {:induction false} LeadingZeroIgnored(s: string)
    requires AllDigits(s)
    ensures AllDigits("0" + s)
    ensures DigitsValue("0" + s) == DigitsValue(s)
    decreases |s|
  {
    if |s| > 0 {
      var t := "0" + s;
      assert t[..|t| - 1] == "0" + s[..|s| - 1];
      LeadingZeroIgnored(s[..|s| - 1]);
    }
  }

  /** A string of digits holds no non-digit separator. */
  lemma DigitsExclude(s: string, c: char)
    requires AllDigits(s) && !IsDigit(c)
    ensures c !in s
  {
    forall i | 0 <= i < |s|
      ensures s[i] != c
    {
      assert IsDigit(s[i]);
    }
  }

  /** Zero-padded decimal text is made of digits only. */
  lemma PaddedDigits(n: nat, width: nat, c: char)
    requires !IsDigit(c)
    ensures AllDigits(PadStart(NatToString(n), width, '0'))
    ensures c !in PadStart(NatToString(n), width, '0')
  {
    var p := PadStart(NatToString(n), width, '0');
    PadStartShape(NatToString(n), width, '0');
    assert forall i :: 0 <= i < |p| ==> IsDigit(p[i]) by {
      forall i | 0 <= i < |p|
        ensures IsDigit(p[i])
      {
        if i >= |p| - |NatToString(n)| {
          assert p[i] == p[|p| - |NatToString(n)|..][i - (|p| - |NatToString(n)|)];
        }
      }
    }
  }

  /** JavaScript's `a % b` on integers for a positive divisor: the remainder takes the sign of a. */
  function Rem(a: int, b: int): (r: int)
    requires b > 0
    ensures a >= 0 ==> r == a % b
    ensures a < 0 ==> -b < r <= 0
  {
    if a >= 0 then a % b else -((-a) % b)
  }

  /** JavaScript's white-space class `\s` (line terminators included). */
  predicate IsSpace(c: char) {
    var n := c as int;
    (9 <= n <= 13) || n == 0x20 || n == 0xA0 || n == 0x1680 || (0x2000 <= n <= 0x200A)
    || n == 0x2028 || n == 0x2029 || n == 0x202F || n == 0x205F || n == 0x3000 || n == 0xFEFF
  }

  function TrimStart(s: string): (r: string)
    ensures |r| <= |s| && r == s[|s| - |r|..]
    ensures |r| > 0 ==> !IsSpace(r[0])
  {
    if |s| > 0 && IsSpace(s[0]) then TrimStart(s[1..]) else s
  }

  function TrimEnd(s: string): (r: string)
    ensures |r| <= |s| && r == s[..|r|]
    ensures |r| > 0 ==> !IsSpace(r[|r| - 1])
  {
    if |s| > 0 && IsSpace(s[|s| - 1]) then TrimEnd(s[..|s| - 1]) else s
  }

  /** Length of the longest prefix of s made of decimal digits. */
  function DigitRun(s: string): (k: nat)
    ensures k <= |s| && AllDigits(s[..k])
    ensures k < |s| ==> !IsDigit(s[k])
  {
    if |s| > 0 && IsDigit(s[0]) then
      var k := 1 + DigitRun(s[1..]);
      assert s[..k] == [s[0]] + s[1..][..k - 1];
      k
    else 0
  }

  /** `parseInt(s)` in base 10: leading white space, an optional sign, then the longest
      digit prefix; `None` stands for NaN (no digit). */
  function ParseInt(s: string): (r: Option<int>)
  {
    var t := TrimStart(s);
    var neg := |t| > 0 && t[0] == '-';
    var u := if |t| > 0 && (t[0] == '-' || t[0] == '+') then t[1..] else t;
    var k := DigitRun(u);
    if k == 0 then None
    else if neg then Some(-(DigitsValue(u[..k]) as int))
    else Some(DigitsValue(u[..k]))
  }

  lemma {:induction false} DigitRunOfDigits(s: string)
    requires AllDigits(s)
    ensures DigitRun(s) == |s|
    decreases |s|
  {
    if |s| > 0 {
      DigitRunOfDigits(s[1..]);
    }
  }

  lemma ParseIntOfDigits(s: string)
    requires |s| > 0 && AllDigits(s)
    ensures ParseInt(s) == Some(DigitsValue(s))
  {
    assert !IsSpace(s[0]);
    assert TrimStart(s) == s;
    DigitRunOfDigits(s);
    assert s[..|s|] == s;
  }

  /** parseInt reads back the text it would print for any natural number, zero-padded or not. */
  lemma ParseIntPadded(n: nat, width: nat)
    ensures ParseInt(PadStart(NatToString(n), width, '0')) == Some(n)
  {
    var d := NatToString(n);
    var p := PadStart(d, width, '0');
    DigitsOfNat(n);
    if |d| < width {
      assert p == seq(width - |d|, i => '0') + d;
      LeadingZerosIgnored(width - |d|, d);
    } else {
      assert p == d;
    }
    assert AllDigits(p) && DigitsValue(p) == n;
    ParseIntOfDigits(p);
  }

  /** `parseFloat(s)` for plain decimal text: leading white space, an optional sign,
      integer digits and an optional fraction; `None` stands for NaN. */
  function ParseFloat(s: string): (r: Option<real>)
  {
    var t := TrimStart(s);
    var neg := |t| > 0 && t[0] == '-';
    var u := if |t| > 0 && (t[0] == '-' || t[0] == '+') then t[1..] else t;
    var k := DigitRun(u);
    var rest := u[k..];
    var frac := if |rest| > 0 && rest[0] == '.' then rest[1..][..DigitRun(rest[1..])] else "";
    if k == 0 && |frac| == 0 then None
    else
      var mag := DigitsValue(u[..k]) as real + FractionValue(frac);
      Some(if neg then -mag else mag)
  }

  /** Value of the digits after a decimal point. */
  function FractionValue(s: string): (r: real)
    requires AllDigits(s)
    ensures 0.0 <= r < 1.0
  {
    if |s| == 0 then 0.0 else (DigitValue(s[0]) as real + FractionValue(s[1..])) / 10.0
  }

  // ------------------------------------------------------- email pattern

  /** No white space in s[lo..hi]. */
  predicate NoSpaceIn(s: string, lo: int, hi: int)
    requires 0 <= lo <= hi <= |s|
  {
    forall k :: lo <= k < hi ==> !IsSpace(s[k])
  }

  /** One match of `\S+@\S+\.\S+` with its '@' at p and its '.' at q (one non-space
      character on each outer side suffices). */
  predicate EmailMatchAt(s: string, p: int, q: int) {
    0 < p && p + 1 < q && q + 1 < |s| && s[p] == '@' && s[q] == '.'
    && NoSpaceIn(s, p - 1, q + 2)
  }

  /** The test `/\S+@\S+\.\S+/.test(s)` (unanchored). */
  predicate MatchesEmailPattern(s: string) {
    exists p, q | 0 <= p < |s| && 0 <= q < |s| :: EmailMatchAt(s, p, q)
  }

  lemma EmailPatternExamples()
    ensures MatchesEmailPattern("a@b.c")
    ensures !MatchesEmailPattern("a@b")
    ensures !MatchesEmailPattern("@b.c")
    ensures !MatchesEmailPattern("a@.c")
  {
    assert EmailMatchAt("a@b.c", 1, 3);
  }

  // -------------------------------------------------------------- option

  datatype Option<+T> = None | Some(value: T)
}
