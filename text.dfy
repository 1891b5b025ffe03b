/** String helpers with the behaviour of the JavaScript built-ins the handlers
    in index.js rely on: `String(n)` for a non-negative integer, `Array.join`,
    `String.prototype.trim` and `split(sep)[0]`. */
module Text {

  predicate IsDigit(c: char) {
    '0' <= c <= '9'
  }

  predicate AllDigits(s: string) {
    forall i :: 0 <= i < |s| ==> IsDigit(s[i])
  }

  /** No character of `s` is `x`. */
  predicate Avoids(s: string, x: char) {
    forall i :: 0 <= i < |s| ==> s[i] != x
  }

  function DigitChar(d: nat): char
    requires d < 10
  {
    ('0' as int + d) as char
  }

  function DigitValue(c: char): nat
    requires IsDigit(c)
  {
    c as int - '0' as int
  }

  /** The decimal numeral of `n`, as `String(n)` and a template literal
      `${n}` produce it: only digits, and no leading zero. */
  function Decimal(n: nat): (r: string)
    ensures |r| > 0 && AllDigits(r)
    ensures r[0] == '0' <==> n == 0
    ensures n == 0 ==> |r| == 1
  {
    if n < 10 then [DigitChar(n)] else Decimal(n / 10) + [DigitChar(n % 10)]
  }

  /** Reads a numeral back, most significant digit first. */
  function ParseDecimal(s: string): nat
    requires AllDigits(s)
  {
    if |s| == 0 then 0 else ParseDecimal(s[..|s| - 1]) * 10 + DigitValue(s[|s| - 1])
  }

  /** Rendering a number and reading it back gives the number again, so
      distinct numbers have distinct numerals. */
  lemma {:induction false} ParseDecimalOfDecimal(n: nat)
    ensures ParseDecimal(Decimal(n)) == n
  {
    if n >= 10 {
      var d := Decimal(n);
      assert d[..|d| - 1] == Decimal(n / 10);
      ParseDecimalOfDecimal(n / 10);
    }
  }

  /** `parts.join(sep)`: the parts in order with `sep` between neighbours. */
  function Join(parts: seq<string>, sep: string): string
  {
    if |parts| == 0 then ""
    else if |parts| == 1 then parts[0]
    else parts[0] + sep + Join(parts[1..], sep)
  }

  /** A character that no part and no separator contains is absent from the
      joined string too. */
  lemma {:induction false} JoinAvoids(parts: seq<string>, sep: string, x: char)
    requires forall i :: 0 <= i < |parts| ==> Avoids(parts[i], x)
    requires Avoids(sep, x)
    ensures Avoids(Join(parts, sep), x)
  {
    if |parts| > 1 {
      JoinAvoids(parts[1..], sep, x);
      var tail := Join(parts[1..], sep);
      assert Join(parts, sep) == parts[0] + sep + tail;
      assert Avoids(parts[0], x);
    }
  }

  /** Concatenation regrouped to the right. */
  lemma Regroup(a: string, b: string, c: string)
    ensures a + b + c == a + (b + c)
  {
  }

  lemma AvoidsAppend(a: string, b: string, x: char)
    requires Avoids(a, x) && Avoids(b, x)
    ensures Avoids(a + b, x)
  {
  }

  /** The characters `String.prototype.trim` removes: the ECMAScript
      WhiteSpace and LineTerminator code points. */
  predicate IsSpace(c: char) {
    var u := c as int;
    u == 0x09 || u == 0x0A || u == 0x0B || u == 0x0C || u == 0x0D || u == 0x20
    || u == 0xA0 || u == 0x1680 || (0x2000 <= u <= 0x200A) || u == 0x2028
    || u == 0x2029 || u == 0x202F || u == 0x205F || u == 0x3000 || u == 0xFEFF
  }

  predicate AllSpace(s: string) {
    forall i :: 0 <= i < |s| ==> IsSpace(s[i])
  }

  /** The first index from `i` on that does not hold white space, or `|s|`
      when there is none. */
  function SkipSpace(s: string, i: nat): (n: nat)
    requires i <= |s|
    ensures i <= n <= |s|
    ensures forall j :: i <= j < n ==> IsSpace(s[j])
    ensures n < |s| ==> !IsSpace(s[n])
    decreases |s| - i
  {
    if i < |s| && IsSpace(s[i]) then SkipSpace(s, i + 1) else i
  }

  /** Going back from `j`, but not below `lo`: the index just past the last
      character that is not white space, or `lo` when there is none. */
  function SkipSpaceBack(s: string, lo: nat, j: nat): (n: nat)
    requires lo <= j <= |s|
    ensures lo <= n <= j
    ensures forall m :: n <= m < j ==> IsSpace(s[m])
    ensures n > lo ==> !IsSpace(s[n - 1])
    decreases j
  {
    if j > lo && IsSpace(s[j - 1]) then SkipSpaceBack(s, lo, j - 1) else j
  }

  /** How many characters of leading white space `s.trim()` drops. */
  function Leading(s: string): nat
  {
    SkipSpace(s, 0)
  }

  /** `s.trim()`: what lies between the leading and the trailing white
      space. The result is a core that neither starts nor ends with white
      space, and around it `s` holds white space only. */
  function Trim(s: string): (r: string)
    ensures var k := Leading(s);
      && k + |r| <= |s|
      && r == s[k..k + |r|]
      && AllSpace(s[..k]) && AllSpace(s[k + |r|..])
      && (r == [] || (!IsSpace(r[0]) && !IsSpace(r[|r| - 1])))
  {
    s[Leading(s)..SkipSpaceBack(s, Leading(s), |s|)]
  }

  lemma {:induction false} SkipSpaceTo(s: string, i: nat, n: nat)
    requires i <= n <= |s|
    requires forall j :: i <= j < n ==> IsSpace(s[j])
    requires n < |s| ==> !IsSpace(s[n])
    ensures SkipSpace(s, i) == n
    decreases n - i
  {
    if i < n {
      SkipSpaceTo(s, i + 1, n);
    }
  }

  lemma {:induction false} SkipSpaceBackTo(s: string, lo: nat, j: nat, n: nat)
    requires lo <= n <= j <= |s|
    requires forall m :: n <= m < j ==> IsSpace(s[m])
    requires n > lo ==> !IsSpace(s[n - 1])
    ensures SkipSpaceBack(s, lo, j) == n
    decreases j - n
  {
    if n < j {
      SkipSpaceBackTo(s, lo, j - 1, n);
    }
  }

  /** The converse of Trim's contract: any core padded with white space on both
      sides trims to that core. Together they say that `Trim(s)` is the one
      such core of `s`. */
  lemma TrimOfPadded(a: string, r: string, b: string)
    requires AllSpace(a) && AllSpace(b)
    requires r == [] || (!IsSpace(r[0]) && !IsSpace(r[|r| - 1]))
    ensures Trim(a + r + b) == r
  {
    var s := a + r + b;
    if r == [] {
      SkipSpaceTo(s, 0, |s|);
      assert Trim(s) == s[|s|..|s|];
    } else {
      SkipSpaceTo(s, 0, |a|);
      SkipSpaceBackTo(s, |a|, |s|, |a| + |r|);
      assert s[|a|..|a| + |r|] == r;
    }
  }

  /** Trimming removes characters and adds none. */
  lemma TrimAvoids(s: string, x: char)
    requires Avoids(s, x)
    ensures Avoids(Trim(s), x)
  {
    var r, k := Trim(s), Leading(s);
    forall i | 0 <= i < |r|
      ensures r[i] != x
    {
      assert r[i] == s[k + i];
    }
  }

  /** `s.split(sep)[0]`: everything before the first `sep`, or all of `s`
      when it has none. */
  function BeforeFirst(s: string, sep: char): (r: string)
    ensures |r| <= |s| && r == s[..|r|]
    ensures Avoids(r, sep)
    ensures |r| < |s| ==> s[|r|] == sep
  {
    if |s| == 0 || s[0] == sep then "" else [s[0]] + BeforeFirst(s[1..], sep)
  }

  /** The converse of BeforeFirst's contract: the text before the first
      `sep` is everything up to it. */
  lemma {:induction false} BeforeFirstOf(a: string, sep: char, b: string)
    requires Avoids(a, sep)
    ensures BeforeFirst(a + [sep] + b, sep) == a
  {
    if |a| > 0 {
      assert (a + [sep] + b)[1..] == a[1..] + [sep] + b;
      BeforeFirstOf(a[1..], sep, b);
    }
  }
}
