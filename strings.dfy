/**
 * The JavaScript string operations the dashboard relies on, with the semantics of
 * ECMAScript: `startsWith`, `includes`, `split` on a non-empty separator, `join`,
 * `trim`, `slice`, `replace` of a string pattern, case mapping, and the decimal and
 * hexadecimal renderings of non-negative integers.
 */
module Strings {
  import opened Wrappers

  /** `s.startsWith(p)` */
  predicate StartsWith(s: string, p: string) {
    |p| <= |s| && s[..|p|] == p
  }

  /** `s.includes(p)`: `p` occurs somewhere in `s`. */
  predicate Contains(s: string, p: string)
    decreases |s|
  {
    StartsWith(s, p) || (|s| > 0 && Contains(s[1..], p))
  }

  lemma {:induction false} ContainsFits(s: string, p: string)
    requires Contains(s, p)
    ensures |p| <= |s|
    decreases |s|
  {
    if !StartsWith(s, p) {
      ContainsFits(s[1..], p);
    }
  }

  /** Every character of an included pattern occurs in the text. */
  lemma {:induction false} ContainsChars(s: string, p: string, c: char)
    requires Contains(s, p) && c in p
    ensures c in s
    decreases |s|
  {
    if StartsWith(s, p) {
      var k :| 0 <= k < |p| && p[k] == c;
      assert s[k] == c;
    } else {
      ContainsChars(s[1..], p, c);
    }
  }

  lemma ContainsSelf(s: string)
    ensures Contains(s, s)
  {
    assert s[..|s|] == s;
  }

  /** A pattern longer than the text, or holding a character the text lacks, is not included. */
  lemma NotContained(s: string, p: string, c: char)
    requires |p| > |s| || (c in p && c !in s)
    ensures !Contains(s, p)
  {
    if Contains(s, p) {
      ContainsFits(s, p);
      if c in p {
        ContainsChars(s, p, c);
      }
    }
  }

  /** For a one-character pattern, `includes` is membership. */
  lemma {:induction false} ContainsChar(s: string, c: char)
    ensures Contains(s, [c]) <==> c in s
    decreases |s|
  {
    if |s| > 0 {
      ContainsChar(s[1..], c);
      assert s == [s[0]] + s[1..];
    }
  }

  /** Every string includes itself as a suffix of any extension on the left. */
  lemma {:induction false} ContainsSuffix(a: string, p: string)
    ensures Contains(a + p, p)
    decreases |a|
  {
    if |a| > 0 {
      assert (a + p)[1..] == a[1..] + p;
      ContainsSuffix(a[1..], p);
    } else {
      assert a + p == p;
    }
  }

  /** A match inside the tail is a match inside the whole. */
  lemma {:induction false} ContainsPrepend(a: string, s: string, p: string)
    requires Contains(s, p)
    ensures Contains(a + s, p)
    decreases |a|
  {
    if |a| > 0 {
      assert (a + s)[1..] == a[1..] + s;
      ContainsPrepend(a[1..], s, p);
    } else {
      assert a + s == s;
    }
  }

  /**
   * `s.split(sep)` for a non-empty separator: the pieces between the non-overlapping
   * occurrences of `sep`, scanning from the left.
   */
  function Split(s: string, sep: string): (parts: seq<string>)
    requires |sep| > 0
    ensures |parts| >= 1
    decreases |s|
  {
    if |s| < |sep| then [s]
    else if s[..|sep|] == sep then [""] + Split(s[|sep|..], sep)
    else
      var rest := Split(s[1..], sep);
      [[s[0]] + rest[0]] + rest[1..]
  }

  /** `parts.join(sep)` */
  function Join(parts: seq<string>, sep: string): string
    decreases |parts|
  {
    if |parts| == 0 then ""
    else if |parts| == 1 then parts[0]
    else parts[0] + sep + Join(parts[1..], sep)
  }

  lemma JoinConsHead(c: char, parts: seq<string>, sep: string)
    requires |parts| >= 1
    ensures Join([[c] + parts[0]] + parts[1..], sep) == [c] + Join(parts, sep)
  {
    var ps := [[c] + parts[0]] + parts[1..];
    assert ps[1..] == parts[1..];
  }

  /** Splitting and joining back with the same separator gives the original string. */
  lemma {:induction false} JoinSplit(s: string, sep: string)
    requires |sep| > 0
    ensures Join(Split(s, sep), sep) == s
    decreases |s|
  {
    if |s| < |sep| {
    } else if s[..|sep|] == sep {
      var rest := Split(s[|sep|..], sep);
      JoinSplit(s[|sep|..], sep);
      assert Split(s, sep) == [""] + rest;
      assert ([""] + rest)[1..] == rest;
      assert Join([""] + rest, sep) == "" + sep + Join(rest, sep);
      assert s == s[..|sep|] + s[|sep|..];
    } else {
      var rest := Split(s[1..], sep);
      JoinSplit(s[1..], sep);
      assert Split(s, sep) == [[s[0]] + rest[0]] + rest[1..];
      JoinConsHead(s[0], rest, sep);
      assert s == [s[0]] + s[1..];
    }
  }

  /** A string without the separator character is a single piece. */
  lemma {:induction false} SplitNoSep(s: string, c: char)
    requires c !in s
    ensures Split(s, [c]) == [s]
    decreases |s|
  {
    if |s| >= 1 {
      assert s[..1] == [s[0]];
      SplitNoSep(s[1..], c);
      assert [s[0]] + s[1..] == s;
    }
  }

  /**
   * When the first occurrence of a one-character separator follows `a`, the first
   * piece is `a` and the rest is the split of what follows the separator.
   */
  lemma {:induction false} SplitAtFirst(a: string, c: char, b: string)
    requires c !in a
    ensures Split(a + [c] + b, [c]) == [a] + Split(b, [c])
    decreases |a|
  {
    var s := a + [c] + b;
    if |a| == 0 {
      assert s[..1] == [c];
      assert s[1..] == b;
    } else {
      assert s[..1] == [a[0]] && a[0] != c;
      assert s[1..] == a[1..] + [c] + b;
      SplitAtFirst(a[1..], c, b);
      assert [a[0]] + a[1..] == a;
    }
  }

  /** A string that includes the separator splits into at least two pieces. */
  lemma {:induction false} SplitContains(s: string, sep: string)
    requires |sep| > 0 && Contains(s, sep)
    ensures |Split(s, sep)| >= 2
    decreases |s|
  {
    ContainsFits(s, sep);
    if s[..|sep|] != sep {
      SplitContains(s[1..], sep);
    }
  }

  /** When the separator character does not occur after its last occurrence, the last piece is that tail. */
  lemma {:induction false} SplitLastPiece(a: string, c: char, b: string)
    requires c !in b
    ensures var parts := Split(a + [c] + b, [c]); |parts| >= 2 && parts[|parts| - 1] == b
    decreases |a|
  {
    var s := a + [c] + b;
    if |a| == 0 {
      assert s[..1] == [c];
      assert s[1..] == b;
      SplitNoSep(b, c);
    } else {
      assert s[1..] == a[1..] + [c] + b;
      SplitLastPiece(a[1..], c, b);
      if s[..1] != [c] {
        var rest := Split(s[1..], [c]);
        assert Split(s, [c]) == [[s[0]] + rest[0]] + rest[1..];
      }
    }
  }

  /** `s.split(sep)[0]`: the text before the first occurrence of `sep`. */
  function Before(s: string, sep: string): string
    requires |sep| > 0
  {
    Split(s, sep)[0]
  }

  /** `s.replace(p, r)` with a string pattern: only the first occurrence is replaced. */
  function ReplaceFirst(s: string, p: string, r: string): string
    decreases |s|
  {
    if StartsWith(s, p) then r + s[|p|..]
    else if |s| == 0 then s
    else [s[0]] + ReplaceFirst(s[1..], p, r)
  }

  /** Replacing a prefix by the empty string drops the prefix. */
  lemma ReplacePrefix(s: string, p: string)
    requires StartsWith(s, p)
    ensures ReplaceFirst(s, p, "") == s[|p|..]
  {
  }

  /** `s.slice(0, n)` for n >= 0 */
  function Take(s: string, n: nat): string {
    if n <= |s| then s[..n] else s
  }

  /** `s.slice(-n)` for n > 0 */
  function TakeLast(s: string, n: nat): string {
    if n <= |s| then s[|s| - n..] else s
  }

  /** `${s.slice(0, 6)}...${s.slice(-4)}`: the short form of an address. */
  function ShortAddress(s: string): (r: string)
    ensures |r| == (if |s| < 6 then |s| else 6) + 3 + (if |s| < 4 then |s| else 4)
    ensures |s| >= 6 ==> r[..6] == s[..6]
    ensures |s| >= 4 ==> |r| >= 4 && r[|r| - 4..] == s[|s| - 4..]
    ensures |s| >= 10 ==> |r| == 13 && r[6..9] == "..."
    ensures |s| < 4 ==> r == s + "..." + s
  {
    Take(s, 6) + "..." + TakeLast(s, 4)
  }

  /**
   * `a.localeCompare(b)`, taken as the lexicographic order of code units: negative,
   * zero or positive as `a` sorts before, with or after `b`.
   */
  function CompareStrings(a: string, b: string): (r: int)
    ensures -1 <= r <= 1
    ensures r == 0 <==> a == b
    decreases |a|
  {
    if |a| == 0 && |b| == 0 then 0
    else if |a| == 0 then -1
    else if |b| == 0 then 1
    else if a[0] < b[0] then -1
    else if a[0] > b[0] then 1
    else
      var r := CompareStrings(a[1..], b[1..]);
      assert a == [a[0]] + a[1..] && b == [b[0]] + b[1..];
      r
  }

  lemma {:induction false} CompareAntisymmetric(a: string, b: string)
    ensures CompareStrings(a, b) < 0 <==> CompareStrings(b, a) > 0
    decreases |a|
  {
    if |a| > 0 && |b| > 0 && a[0] == b[0] {
      CompareAntisymmetric(a[1..], b[1..]);
    }
  }

  lemma {:induction false} CompareTransitive(a: string, b: string, c: string)
    requires CompareStrings(a, b) <= 0 && CompareStrings(b, c) <= 0
    ensures CompareStrings(a, c) <= 0
    decreases |a|
  {
    if |a| > 0 && |b| > 0 && |c| > 0 && a[0] == b[0] && b[0] == c[0] {
      CompareTransitive(a[1..], b[1..], c[1..]);
    }
  }

  /** ASCII case mapping (`toLowerCase`/`toUpperCase` restricted to ASCII letters). */
  function LowerChar(c: char): char {
    if 'A' <= c <= 'Z' then (c as int + 32) as char else c
  }

  function UpperChar(c: char): char {
    if 'a' <= c <= 'z' then (c as int - 32) as char else c
  }

  function ToLower(s: string): (r: string)
    ensures |r| == |s|
    ensures forall i :: 0 <= i < |s| ==> r[i] == LowerChar(s[i])
  {
    seq(|s|, i requires 0 <= i < |s| => LowerChar(s[i]))
  }

  function ToUpper(s: string): (r: string)
    ensures |r| == |s|
    ensures forall i :: 0 <= i < |s| ==> r[i] == UpperChar(s[i])
  {
    seq(|s|, i requires 0 <= i < |s| => UpperChar(s[i]))
  }

  /**
   * The code points `String.prototype.trim` removes: WhiteSpace (tab, vertical tab,
   * form feed, space, no-break space, byte-order mark and the Zs category) and
   * LineTerminator (line feed, carriage return, line and paragraph separators).
   */
  predicate IsWhitespace(c: char) {
    var n := c as int;
    n == 0x09 || n == 0x0A || n == 0x0B || n == 0x0C || n == 0x0D || n == 0x20
    || n == 0xA0 || n == 0x1680 || (0x2000 <= n <= 0x200A) || n == 0x2028 || n == 0x2029
    || n == 0x202F || n == 0x205F || n == 0x3000 || n == 0xFEFF
  }

  function TrimStart(s: string): (r: string)
    ensures |r| <= |s| && r == s[|s| - |r|..]
    ensures |r| > 0 ==> !IsWhitespace(r[0])
    ensures forall i :: 0 <= i < |s| - |r| ==> IsWhitespace(s[i])
  {
    if |s| > 0 && IsWhitespace(s[0]) then TrimStart(s[1..]) else s
  }

  function TrimEnd(s: string): (r: string)
    ensures |r| <= |s| && r == s[..|r|]
    ensures |r| > 0 ==> !IsWhitespace(r[|r| - 1])
    ensures forall i :: |r| <= i < |s| ==> IsWhitespace(s[i])
  {
    if |s| > 0 && IsWhitespace(s[|s| - 1]) then TrimEnd(s[..|s| - 1]) else s
  }

  /** `s.trim()` */
  function Trim(s: string): string {
    TrimEnd(TrimStart(s))
  }

  /** The lower-case digit characters of `Number.prototype.toString(radix)`. */
  function DigitChar(d: nat): char
    requires d < 16
  {
    "0123456789abcdef"[d]
  }

  /** The value of a digit character in `base` (either case for letters), if it is one. */
  function DigitValue(c: char, base: nat): Option<nat> {
    var v :=
      if '0' <= c <= '9' then c as int - '0' as int
      else if 'a' <= c <= 'f' then c as int - 'a' as int + 10
      else if 'A' <= c <= 'F' then c as int - 'A' as int + 10
      else 16;
    if v < base then Some(v) else None
  }

  predicate IsDigitIn(c: char, base: nat) {
    DigitValue(c, base).Some?
  }

  /** Euclidean division by a base of at least 2 shrinks every value at least the base. */
  lemma DivideByBase(n: nat, base: nat)
    requires 2 <= base
    ensures n == (n / base) * base + n % base && 0 <= n % base < base
    ensures n >= base ==> n / base < n
  {
  }

  lemma DigitRoundTrip(d: nat, base: nat)
    requires d < base <= 16
    ensures DigitValue(DigitChar(d), base) == Some(d)
  {
  }

  /** `n.toString(base)` for a non-negative integer. */
  function ToBase(n: nat, base: nat): (r: string)
    requires 2 <= base <= 16
    ensures |r| >= 1 && forall i :: 0 <= i < |r| ==> IsDigitIn(r[i], base)
    decreases n
  {
    DivideByBase(n, base);
    DigitRoundTrip(n % base, base);
    if n < base then [DigitChar(n)]
    else ToBase(n / base, base) + [DigitChar(n % base)]
  }

  /** The value of a string of digits in `base`, most significant first. */
  function ParseBase(s: string, base: nat): nat
    requires forall i :: 0 <= i < |s| ==> IsDigitIn(s[i], base)
    decreases |s|
  {
    if |s| == 0 then 0
    else
      assert IsDigitIn(s[|s| - 1], base);
      ParseBase(s[..|s| - 1], base) * base + DigitValue(s[|s| - 1], base).value
  }

  /** Parsing the rendering of `n` in any base from 2 to 16 gives back `n`. */
  lemma {:induction false} ParseToBase(n: nat, base: nat)
    requires 2 <= base <= 16
    ensures ParseBase(ToBase(n, base), base) == n
    decreases n
  {
    var r := ToBase(n, base);
    if n < base {
      DigitRoundTrip(n, base);
      assert r == [DigitChar(n)];
      assert r[..0] == [];
      assert ParseBase(r, base) == ParseBase([], base) * base + DigitValue(DigitChar(n), base).value;
    } else {
      DivideByBase(n, base);
      var q, d := n / base, n % base;
      DigitRoundTrip(d, base);
      assert r == ToBase(q, base) + [DigitChar(d)];
      assert r[..|r| - 1] == ToBase(q, base);
      ParseToBase(q, base);
      assert ParseBase(r, base) == q * base + d;
    }
  }


  /** The decimal rendering of a natural number is injective. */
  lemma DecimalInjective(m: nat, n: nat)
    requires ToBase(m, 10) == ToBase(n, 10)
    ensures m == n
  {
    ParseToBase(m, 10);
    ParseToBase(n, 10);
  }

  /** The longest prefix of digits in `base`. */
  function DigitPrefix(s: string, base: nat): (r: string)
    ensures |r| <= |s| && r == s[..|r|]
    ensures forall i :: 0 <= i < |r| ==> IsDigitIn(r[i], base)
    ensures |r| < |s| ==> !IsDigitIn(s[|r|], base)
    decreases |s|
  {
    if |s| > 0 && IsDigitIn(s[0], base) then [s[0]] + DigitPrefix(s[1..], base) else []
  }

  /**
   * How `parseInt` without a radix reads a string once leading white space is skipped:
   * an optional sign, then a `0x` or `0X` prefix selecting base 16, else base 10, and
   * the text where the digits start.
   */
  datatype IntSyntax = IntSyntax(negative: bool, radix: nat, body: string)

  function IntSyntaxOf(s: string): (x: IntSyntax)
    ensures x.radix == 10 || x.radix == 16
    ensures |x.body| <= |s| && x.body == s[|s| - |x.body|..]
  {
    var t := TrimStart(s);
    var negative := |t| > 0 && t[0] == '-';
    var u := if |t| > 0 && (t[0] == '-' || t[0] == '+') then t[1..] else t;
    if |u| >= 2 && u[0] == '0' && (u[1] == 'x' || u[1] == 'X') then IntSyntax(negative, 16, u[2..])
    else IntSyntax(negative, 10, u)
  }

  /**
   * `parseInt(s)`: the longest run of digits in the radix, with its sign; `None` stands
   * for `NaN`, when the run is empty.
   */
  function ParseInt(s: string): (n: Option<int>)
    ensures var x := IntSyntaxOf(s);
      && (n.None? <==> |x.body| == 0 || !IsDigitIn(x.body[0], x.radix))
      && (n.Some? ==> n.value == (if x.negative then -1 else 1) * ParseBase(DigitPrefix(x.body, x.radix), x.radix))
  {
    var x := IntSyntaxOf(s);
    var digits := DigitPrefix(x.body, x.radix);
    if |digits| == 0 then None
    else
      assert x.body[0] == digits[0];
      assert s[|s| - |x.body|] == digits[0];
      var magnitude: int := ParseBase(digits, x.radix);
      Some(if x.negative then -magnitude else magnitude)
  }

  /** Text starting with a decimal digit, and not with `0x` or `0X`, is read in base 10. */
  lemma DecimalSyntax(s: string)
    requires |s| > 0 && '0' <= s[0] <= '9'
    requires |s| >= 2 ==> s[1] != 'x' && s[1] != 'X'
    ensures IntSyntaxOf(s) == IntSyntax(false, 10, s)
  {
    TrimStartKeeps(s);
  }

  lemma DecimalDigitRange(c: char)
    requires IsDigitIn(c, 10)
    ensures '0' <= c <= '9'
  {
  }

  lemma DropPrefix<T>(a: seq<T>, b: seq<T>)
    ensures (a + b)[..|a|] == a && (a + b)[|a|..] == b
  {
  }

  /** A string that does not start with white space is its own `trimStart`. */
  lemma TrimStartKeeps(s: string)
    requires |s| > 0 && ('0' <= s[0] <= '9')
    ensures TrimStart(s) == s
  {
    assert !IsWhitespace(s[0]);
  }

  /** Digits followed by a non-digit: the digits are the longest prefix. */
  lemma {:induction false} DigitPrefixStops(digits: string, tail: string, base: nat)
    requires forall i :: 0 <= i < |digits| ==> IsDigitIn(digits[i], base)
    requires |tail| == 0 || !IsDigitIn(tail[0], base)
    ensures DigitPrefix(digits + tail, base) == digits
    decreases |digits|
  {
    if |digits| > 0 {
      assert (digits + tail)[1..] == digits[1..] + tail;
      DigitPrefixStops(digits[1..], tail, base);
    } else {
      assert digits + tail == tail;
    }
  }

  /**
   * A number's decimal digits, followed by anything that does not continue them (nor turns
   * a lone '0' into a hex prefix), are read back as that number.
   */
  lemma ParseIntDecimal(n: nat, tail: string)
    requires |tail| == 0 || (!IsDigitIn(tail[0], 10) && tail[0] != 'x' && tail[0] != 'X')
    ensures ParseInt(ToBase(n, 10) + tail) == Some(n)
  {
    var d := ToBase(n, 10);
    var s := d + tail;
    DropPrefix(d, tail);
    DecimalDigitRange(d[0]);
    if |d| >= 2 {
      DecimalDigitRange(d[1]);
    }
    DecimalSyntax(s);
    DigitPrefixStops(d, tail, 10);
    ParseToBase(n, 10);
  }

  lemma ParseIntOfDecimal(n: nat)
    ensures ParseInt(ToBase(n, 10)) == Some(n)
  {
    ParseIntDecimal(n, []);
    assert ToBase(n, 10) + [] == ToBase(n, 10);
  }

  /** `0x`, then a number's hexadecimal digits, then a non-digit: read back in base 16. */
  lemma ParseIntHex(n: nat, tail: string)
    requires |tail| == 0 || !IsDigitIn(tail[0], 16)
    ensures ParseInt("0x" + ToBase(n, 16) + tail) == Some(n)
  {
    var d := ToBase(n, 16);
    var s := "0x" + (d + tail);
    assert "0x" + d + tail == s;
    DropPrefix("0x", d + tail);
    assert s[0] == '0' && s[1] == 'x';
    TrimStartKeeps(s);
    assert IntSyntaxOf(s) == IntSyntax(false, 16, d + tail);
    DigitPrefixStops(d, tail, 16);
    ParseToBase(n, 16);
  }

}
