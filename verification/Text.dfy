/** Decimal numerals and separated lists, as the formatting helpers of the repository print them. */
module Text {
  import opened Prelude

  // ---------------------------------------------------------------- numerals

  predicate IsDigit(c: char) {
    '0' <= c <= '9'
  }

  predicate AllDigits(s: string) {
    forall c | c in s :: IsDigit(c)
  }

  function DigitChar(d: nat): char
    requires d < 10
  {
    ['0', '1', '2', '3', '4', '5', '6', '7', '8', '9'][d]
  }

  function DigitValue(c: char): nat {
    if IsDigit(c) then c as int - '0' as int else 0
  }

  /** str(n) */
  function Digits(n: nat): (s: string)
    ensures s != [] && AllDigits(s)
  {
    if n < 10 then [DigitChar(n)] else Digits(n / 10) + [DigitChar(n % 10)]
  }

  function Decimal(n: int): string {
    if n < 0 then "-" + Digits(-n) else Digits(n)
  }

  /** int(s) for a string of digits. */
  function Value(s: string): nat {
    if s == [] then 0 else 10 * Value(s[..|s|-1]) + DigitValue(s[|s|-1])
  }

  function Repeat(c: char, n: nat): (s: string)
    ensures |s| == n && forall x | x in s :: x == c
  {
    if n == 0 then [] else Repeat(c, n - 1) + [c]
  }

  /** str(n).zfill(width) */
  function ZeroFill(n: nat, width: nat): string {
    var s := Digits(n);
    if |s| < width then Repeat('0', width - |s|) + s else s
  }

  /** f"{n:>{width}}" */
  function PadLeft(s: string, width: nat): string {
    if |s| < width then Repeat(' ', width - |s|) + s else s
  }

  lemma {:induction false} ValueOfDigits(n: nat)
    ensures Value(Digits(n)) == n
  {
    if n >= 10 {
      ValueOfDigits(n / 10);
      assert Digits(n)[..|Digits(n)|-1] == Digits(n / 10);
    }
  }

  lemma {:induction false} DigitsMonotone(m: nat, n: nat)
    requires m <= n
    ensures |Digits(m)| <= |Digits(n)|
  {
    if m >= 10 { DigitsMonotone(m / 10, n / 10); }
  }

  lemma FirstDigit(n: nat)
    ensures Digits(n) != [] && Digits(n)[0] != '-'
  {
    assert Digits(n)[0] in Digits(n);
  }

  lemma DecimalSign(n: int)
    ensures Decimal(n) != [] && (Decimal(n)[0] == '-' <==> n < 0)
    ensures n < 0 ==> Decimal(n)[1..] == Digits(-n)
  {
    if n >= 0 { FirstDigit(n); }
    hide Digits;
  }

  /** No two numbers are printed alike. */
  lemma DecimalTells(m: int, n: int)
    requires Decimal(m) == Decimal(n)
    ensures m == n
  {
    hide Digits, Value, Decimal;
    DecimalSign(m);
    DecimalSign(n);
    if m < 0 {
      ValueOfDigits(-m);
      ValueOfDigits(-n);
    } else {
      ValueOfDigits(m);
      ValueOfDigits(n);
    }
    PositiveDecimal(m);
    PositiveDecimal(n);
  }

  lemma PositiveDecimal(n: int)
    ensures n >= 0 ==> Decimal(n) == Digits(n)
  {
    hide Digits;
  }

  /** Decimal numerals hold no space and are not empty. */
  lemma DecimalPlain(n: int)
    ensures Decimal(n) != [] && ' ' !in Decimal(n)
  {
  }

  /** Padding on the left adds spaces only, up to the width. */
  lemma PadLeftMeans(s: string, width: nat)
    ensures |PadLeft(s, width)| == if |s| < width then width else |s|
    ensures PadLeft(s, width)[|PadLeft(s, width)| - |s|..] == s
    ensures forall k | 0 <= k < |PadLeft(s, width)| - |s| :: PadLeft(s, width)[k] == ' '
  {
    if |s| < width {
      var pad := Repeat(' ', width - |s|);
      assert PadLeft(s, width) == pad + s;
      assert forall k | 0 <= k < |pad| :: pad[k] in pad;
    }
  }

  lemma {:induction false} ValueOfZeros(k: nat, s: string)
    ensures Value(Repeat('0', k) + s) == Value(s)
  {
    var z := Repeat('0', k);
    if s == [] {
      assert z + s == z;
      if k > 0 {
        assert z[..|z|-1] == Repeat('0', k - 1) && z[|z|-1] == '0';
        ValueOfZeros(k - 1, s);
        assert Repeat('0', k - 1) + s == Repeat('0', k - 1);
      }
    } else {
      ValueOfZeros(k, s[..|s|-1]);
      assert (z + s)[..|z + s|-1] == z + s[..|s|-1] && (z + s)[|z + s|-1] == s[|s|-1];
      hide Repeat, DigitValue;
    }
  }

  /** Printing a number and reading it back gives the number, whatever the padding. */
  lemma ZeroFillRoundTrip(n: nat, width: nat)
    ensures Value(ZeroFill(n, width)) == n
    ensures AllDigits(ZeroFill(n, width)) && ZeroFill(n, width) != []
    ensures |ZeroFill(n, width)| == if |Digits(n)| < width then width else |Digits(n)|
  {
    ValueOfDigits(n);
    ValueOfZeros(if |Digits(n)| < width then width - |Digits(n)| else 0, Digits(n));
  }

  // ---------------------------------------------------------------- white space

  predicate IsSpace(c: char) {
    c in {' ', '\t', '\n', '\r', '\U{0B}', '\U{0C}'} || '\U{1C}' <= c <= '\U{1F}'
  }

  predicate AllSpace(s: string) {
    forall c | c in s :: IsSpace(c)
  }

  /** s neither begins nor ends with white space. */
  predicate Trimmed(s: string) {
    s != [] ==> !IsSpace(s[0]) && !IsSpace(s[|s|-1])
  }

  function StripLeft(s: string): string {
    if s != [] && IsSpace(s[0]) then StripLeft(s[1..]) else s
  }

  function StripRight(s: string): string {
    if s != [] && IsSpace(s[|s|-1]) then StripRight(s[..|s|-1]) else s
  }

  /** s.strip() */
  function Strip(s: string): string {
    StripRight(StripLeft(s))
  }

  lemma {:induction false} StripLeftMeans(s: string)
    ensures |StripLeft(s)| <= |s| && s[|s| - |StripLeft(s)|..] == StripLeft(s) && AllSpace(s[..|s| - |StripLeft(s)|])
    ensures StripLeft(s) != [] ==> !IsSpace(StripLeft(s)[0])
  {
    if s != [] && IsSpace(s[0]) {
      StripLeftMeans(s[1..]);
      var n := |s| - |StripLeft(s)|;
      assert s[..n] == [s[0]] + s[1..][..n - 1];
    }
  }

  lemma {:induction false} StripRightMeans(s: string)
    ensures |StripRight(s)| <= |s| && s[..|StripRight(s)|] == StripRight(s) && AllSpace(s[|StripRight(s)|..])
    ensures StripRight(s) != [] ==> !IsSpace(StripRight(s)[|StripRight(s)|-1])
  {
    if s != [] && IsSpace(s[|s|-1]) {
      StripRightMeans(s[..|s|-1]);
      var n := |StripRight(s)|;
      assert s[n..] == s[..|s|-1][n..] + [s[|s|-1]];
    }
  }

  /** s is core with white space around it. */
  ghost predicate Around(s: string, pre: string, core: string, post: string) {
    s == pre + core + post && AllSpace(pre) && AllSpace(post) && Trimmed(core)
  }

  /** Strip leaves the core: there is only one way to take white space off both ends, but for blank text. */
  lemma StripMeans(s: string) returns (pre: string, post: string)
    ensures Around(s, pre, Strip(s), post)
  {
    var left := StripLeft(s);
    StripLeftMeans(s);
    StripRightMeans(left);
    pre, post := s[..|s| - |left|], left[|Strip(s)|..];
    assert left == Strip(s) + post && s == pre + left;
    if Strip(s) != [] { assert Strip(s)[0] == left[0]; }
  }

  /** Outside the core there is only white space, and the core's ends are none. */
  lemma CoreEnds(s: string, pre: string, core: string, post: string)
    requires Around(s, pre, core, post)
    ensures forall k | 0 <= k < |s| && !IsSpace(s[k]) :: |pre| <= k < |pre| + |core|
    ensures core != [] ==> !IsSpace(s[|pre|]) && !IsSpace(s[|pre| + |core| - 1])
    ensures core == s[|pre|..|pre| + |core|]
  {
    assert forall k | 0 <= k < |pre| :: s[k] == pre[k];
    assert forall k | 0 <= k < |core| :: s[|pre| + k] == core[k];
    forall k | |pre| + |core| <= k < |s| ensures IsSpace(s[k]) {
      assert s[k] == post[k - |pre| - |core|];
    }
  }

  lemma SameCore(s: string, pre: string, core: string, post: string, pre': string, core': string, post': string)
    requires Around(s, pre, core, post) && Around(s, pre', core', post')
    ensures core == core'
  {
    CoreEnds(s, pre, core, post);
    CoreEnds(s, pre', core', post');
    hide AllSpace, IsSpace;
  }

  lemma SpaceCodes(c: char)
    ensures IsSpace(c) <==> 9 <= c as int <= 13 || 28 <= c as int <= 32
  {
  }

  // ---------------------------------------------------------------- separated lists

  /** sep.join(parts) */
  function Join(parts: seq<string>, sep: char): string {
    if parts == [] then []
    else if |parts| == 1 then parts[0]
    else Join(parts[..|parts|-1], sep) + [sep] + parts[|parts|-1]
  }

  /** s.split(sep) */
  function Split(s: string, sep: char): (parts: seq<string>)
    ensures parts != []
  {
    if s == [] then [[]]
    else
      var parts := Split(s[..|s|-1], sep);
      if s[|s|-1] == sep then parts + [[]]
      else parts[..|parts|-1] + [parts[|parts|-1] + [s[|s|-1]]]
  }

  lemma {:induction false} SplitLast(s: string, t: string, sep: char)
    requires sep !in t
    ensures Split(s + [sep] + t, sep) == Split(s, sep) + [t]
  {
    var u := s + [sep] + t;
    if t == [] {
      assert u[..|u|-1] == s && u[|u|-1] == sep;
    } else {
      var front := t[..|t|-1];
      assert u[..|u|-1] == s + [sep] + front && u[|u|-1] == t[|t|-1];
      SplitLast(s, front, sep);
      assert (Split(s, sep) + [front])[..|Split(s, sep)|] == Split(s, sep);
      assert t == front + [t[|t|-1]];
    }
  }

  lemma {:induction false} SplitWhole(t: string, sep: char)
    requires sep !in t
    ensures Split(t, sep) == [t]
  {
    if t != [] {
      SplitWhole(t[..|t|-1], sep);
      assert t == t[..|t|-1] + [t[|t|-1]];
    }
  }

  predicate Free(parts: seq<string>, sep: char) {
    forall i | 0 <= i < |parts| :: sep !in parts[i]
  }

  /** Splitting a joined list gives the list back, when no part holds the separator. */
  lemma {:induction false} JoinRoundTrip(parts: seq<string>, sep: char)
    requires parts != [] && Free(parts, sep)
    ensures Split(Join(parts, sep), sep) == parts
  {
    hide Split;
    if |parts| == 1 {
      SplitWhole(parts[0], sep);
    } else {
      var front, last := parts[..|parts|-1], parts[|parts|-1];
      assert Free(front, sep) && sep !in last;
      JoinRoundTrip(front, sep);
      assert Join(parts, sep) == Join(front, sep) + [sep] + last;
      SplitLast(Join(front, sep), last, sep);
      assert parts == front + [last];
    }
  }
}
