/** The JavaScript string operations the application relies on: `Array.prototype.join`,
    number interpolation in template literals, `startsWith`, `includes`, `toLowerCase`,
    `trim` and `split` with a one-character separator. */
module Text {

  /** `xs.join(sep)`: the empty list joins to "". */
  function Join(xs: seq<string>, sep: string): string
    decreases |xs|
  {
    if |xs| == 0 then "" else if |xs| == 1 then xs[0] else xs[0] + sep + Join(xs[1..], sep)
  }

  function DigitChar(d: nat): (c: char)
    requires d < 10
    ensures '0' <= c <= '9'
    ensures DigitValue(c) == d
  {
    ('0' as int + d) as char
  }

  function DigitValue(c: char): int {
    c as int - '0' as int
  }

  /** The number a string of decimal digits denotes, most significant digit first. */
  function DecimalValue(s: string): int
    decreases |s|
  {
    if s == [] then 0 else DecimalValue(s[..|s| - 1]) * 10 + DigitValue(s[|s| - 1])
  }

  /** Decimal rendering of a non-negative integer, as `${n}` prints it: digits only, denoting
      `n`, with no leading zero except for 0 itself. */
  function NatToString(n: nat): (r: string)
    ensures |r| >= 1
    ensures forall k :: 0 <= k < |r| ==> '0' <= r[k] <= '9'
    ensures DecimalValue(r) == n
    ensures r[0] == '0' <==> n == 0
    ensures n == 0 ==> r == "0"
  {
    if n < 10 then
      var r := [DigitChar(n)];
      assert r[..0] == [];
      r
    else
      var r := NatToString(n / 10) + [DigitChar(n % 10)];
      assert r[..|r| - 1] == NatToString(n / 10);
      r
  }

  /** Decimal rendering of an integer, as `${i}` prints it: a '-' sign exactly for a negative
      integer. */
  function IntToString(i: int): (r: string)
    ensures |r| >= 1
    ensures r[0] == '-' <==> i < 0
  {
    if i < 0 then "-" + NatToString(-i) else NatToString(i)
  }

  /** After the sign, `${i}` is all digits, and they denote the magnitude of `i`. */
  lemma IntToStringDenotes(i: int)
    ensures var r := IntToString(i);
      var digits := if i < 0 then r[1..] else r;
      (forall k :: 0 <= k < |digits| ==> '0' <= digits[k] <= '9')
      && DecimalValue(digits) == if i < 0 then -i else i
  {
    if i < 0 {
      assert IntToString(i)[1..] == NatToString(-i);
    }
  }

  lemma AppendAssoc(a: string, b: string, c: string)
    ensures a + b + c == a + (b + c)
  {
  }

  predicate StartsWith(s: string, prefix: string) {
    |prefix| <= |s| && s[..|prefix|] == prefix
  }

  /** `s.includes(t)`: some suffix of `s` starts with `t`. */
  predicate Contains(s: string, t: string)
    decreases |s|
  {
    StartsWith(s, t) || (|s| > 0 && Contains(s[1..], t))
  }

  /** `toLowerCase` on the ASCII letters; other characters are kept. */
  function LowerChar(c: char): char {
    if 'A' <= c <= 'Z' then (c as int - 'A' as int + 'a' as int) as char else c
  }

  function ToLower(s: string): (r: string)
    ensures |r| == |s|
    ensures forall k :: 0 <= k < |s| ==> r[k] == LowerChar(s[k])
  {
    seq(|s|, k requires 0 <= k < |s| => LowerChar(s[k]))
  }

  lemma ToLowerIdempotent(s: string)
    ensures ToLower(ToLower(s)) == ToLower(s)
  {
    var once := ToLower(s);
    assert forall k :: 0 <= k < |s| ==> ToLower(once)[k] == once[k];
  }

  lemma ToLowerSlice(s: string, i: nat, j: nat)
    requires i <= j <= |s|
    ensures ToLower(s)[i..j] == ToLower(s[i..j])
  {
  }

  /** Lower-casing both sides keeps every occurrence: `s.includes(t)` implies
      `s.toLowerCase().includes(t.toLowerCase())`. */
  lemma {:induction false} ContainsToLower(s: string, t: string)
    requires Contains(s, t)
    ensures Contains(ToLower(s), ToLower(t))
    decreases |s|
  {
    if StartsWith(s, t) {
      ToLowerSlice(s, 0, |t|);
      assert ToLower(s)[..|t|] == ToLower(t);
    } else {
      ContainsToLower(s[1..], t);
      assert ToLower(s)[1..] == ToLower(s[1..]);
    }
  }

  /** ECMAScript white space and line terminators: the characters `trim` removes. */
  predicate IsSpace(c: char) {
    c == '\t' || c == '\n' || c == '\U{B}' || c == '\U{C}' || c == '\r' || c == ' '
    || c == '\U{A0}' || c == '\U{1680}' || ('\U{2000}' <= c <= '\U{200A}')
    || c == '\U{2028}' || c == '\U{2029}' || c == '\U{202F}' || c == '\U{205F}'
    || c == '\U{3000}' || c == '\U{FEFF}'
  }

  /** Every character is white space (vacuously so for ""). */
  predicate Blank(s: string) {
    forall k :: 0 <= k < |s| ==> IsSpace(s[k])
  }

  /** Every character of `s` from index `i` up to `j` is white space. */
  predicate BlankBetween(s: string, i: int, j: int)
    requires 0 <= i <= j <= |s|
  {
    forall k {:trigger IsSpace(s[k])} :: i <= k < j ==> IsSpace(s[k])
  }

  /** The number of white-space characters `s` starts with. */
  function LeadingSpaces(s: string): (n: nat)
    ensures n <= |s| && BlankBetween(s, 0, n)
    ensures n < |s| ==> !IsSpace(s[n])
    decreases |s|
  {
    if s != [] && IsSpace(s[0]) then
      var n := 1 + LeadingSpaces(s[1..]);
      assert forall k :: 1 <= k < n ==> s[k] == s[1..][k - 1];
      n
    else
      0
  }

  /** The number of white-space characters `s` ends with. */
  function TrailingSpaces(s: string): (n: nat)
    ensures n <= |s| && BlankBetween(s, |s| - n, |s|)
    ensures n < |s| ==> !IsSpace(s[|s| - n - 1])
    decreases |s|
  {
    if s != [] && IsSpace(s[|s| - 1]) then
      var n := 1 + TrailingSpaces(s[..|s| - 1]);
      assert forall k :: |s| - n <= k < |s| - 1 ==> s[k] == s[..|s| - 1][k];
      n
    else
      0
  }

  /** `s.trimStart()`: a suffix of `s` that does not start with white space, and what it
      drops is white space. */
  function TrimStart(s: string): (r: string)
    ensures r == [] || !IsSpace(r[0])
    ensures exists i :: 0 <= i <= |s| && r == s[i..] && BlankBetween(s, 0, i)
  {
    s[LeadingSpaces(s)..]
  }

  /** `s.trimEnd()`: a prefix of `s` that does not end with white space, and what it drops
      is white space. */
  function TrimEnd(s: string): (r: string)
    ensures r == [] || !IsSpace(r[|r| - 1])
    ensures exists j :: 0 <= j <= |s| && r == s[..j] && BlankBetween(s, j, |s|)
  {
    s[..|s| - TrailingSpaces(s)]
  }

  /** `s.trim()`: the result is a contiguous piece of `s` that neither starts nor ends with
      white space, and what it removes at either end is white space. */
  function Trim(s: string): (r: string)
    ensures r == [] || (!IsSpace(r[0]) && !IsSpace(r[|r| - 1]))
    ensures exists i, j ::
              0 <= i <= j <= |s| && r == s[i..j] && BlankBetween(s, 0, i) && BlankBetween(s, j, |s|)
  {
    var t := TrimEnd(s);
    var i := LeadingSpaces(t);
    var j := |s| - TrailingSpaces(s);
    assert t[i..] == s[i..j];
    assert forall k :: 0 <= k < i ==> t[k] == s[k];
    assert BlankBetween(s, 0, i);
    TrimStart(t)
  }

  /** `!s.trim()` holds exactly for the strings made only of white space. */
  lemma TrimEmpty(s: string)
    ensures Trim(s) == [] <==> Blank(s)
  {
    var j := |s| - TrailingSpaces(s);
    var t := TrimEnd(s);
    assert t == s[..j];
    if Trim(s) == [] {
      assert LeadingSpaces(t) == |t|;
      assert j == 0;
      forall k | 0 <= k < |s|
        ensures IsSpace(s[k])
      {
      }
    }
  }

  /** `s.split(sep)` for a one-character separator: "" splits to [""], and every
      separator ends one piece. */
  function Split(s: string, sep: char): (r: seq<string>)
    ensures |r| >= 1
    decreases |s|
  {
    if s == [] then [""]
    else
      var rest := Split(s[1..], sep);
      if s[0] == sep then [""] + rest else [[s[0]] + rest[0]] + rest[1..]
  }

  /** No piece of a split contains the separator. */
  lemma {:induction false} SplitPiecesLackSeparator(s: string, sep: char)
    ensures forall k :: 0 <= k < |Split(s, sep)| ==> sep !in Split(s, sep)[k]
    decreases |s|
  {
    if s != [] {
      SplitPiecesLackSeparator(s[1..], sep);
    }
  }

  /** Joining the pieces with the separator gives back the original string. */
  lemma {:induction false} JoinSplit(s: string, sep: char)
    ensures Join(Split(s, sep), [sep]) == s
    decreases |s|
  {
    if s != [] {
      var rest := Split(s[1..], sep);
      JoinSplit(s[1..], sep);
      assert Join(rest, [sep]) == s[1..];
      if |rest| == 1 {
        assert Join(rest, [sep]) == rest[0];
      } else {
        assert Join(rest, [sep]) == rest[0] + [sep] + Join(rest[1..], [sep]);
      }
      if s[0] == sep {
        assert Split(s, sep) == [""] + rest;
        assert ([""] + rest)[1..] == rest;
      } else {
        var head := [[s[0]] + rest[0]] + rest[1..];
        assert Split(s, sep) == head;
        assert head[1..] == rest[1..];
        if |rest| == 1 {
          assert Join(head, [sep]) == [s[0]] + rest[0];
        } else {
          assert Join(head, [sep]) == [s[0]] + rest[0] + [sep] + Join(rest[1..], [sep]);
        }
      }
    }
  }
}
