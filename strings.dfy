/**
 * String helpers with the behaviour of the JavaScript built-ins the backend
 * uses: decimal rendering of integers, `parseInt` without a radix, `Number()`
 * on strings, `trim`, `split` on one character, `join`, `startsWith`,
 * `includes` and the default (code-unit) ordering of `Array.prototype.sort`.
 */
module Strings {
  import opened Basics

  predicate IsDigit(c: char) { '0' <= c <= '9' }

  predicate AllDigits(s: string) { forall i :: 0 <= i < |s| ==> IsDigit(s[i]) }

  /** A digit of the given radix (10 or 16): `0-9`, and `a-f`/`A-F` for 16. */
  predicate IsRadixDigit(c: char, radix: nat)
  {
    IsDigit(c) || (radix == 16 && ('a' <= c <= 'f' || 'A' <= c <= 'F'))
  }

  function RadixDigitValue(c: char, radix: nat): (d: nat)
    requires IsRadixDigit(c, radix)
    ensures radix == 10 || radix == 16 ==> d < radix
  {
    if IsDigit(c) then c as int - '0' as int
    else if 'a' <= c <= 'f' then c as int - 'a' as int + 10
    else c as int - 'A' as int + 10
  }

  predicate AllRadixDigits(s: string, radix: nat)
  {
    forall i :: 0 <= i < |s| ==> IsRadixDigit(s[i], radix)
  }

  /** Value of a run of digits, most significant first. */
  function RadixValue(s: string, radix: nat): nat
    requires AllRadixDigits(s, radix)
  {
    if s == [] then 0
    else RadixValue(s[..|s| - 1], radix) * radix + RadixDigitValue(s[|s| - 1], radix)
  }

  /** The longest prefix of `s` made of digits of the radix. */
  function DigitPrefix(s: string, radix: nat): (p: string)
    ensures p <= s && AllRadixDigits(p, radix)
    ensures |p| < |s| ==> !IsRadixDigit(s[|p|], radix)
  {
    if s == [] || !IsRadixDigit(s[0], radix) then [] else [s[0]] + DigitPrefix(s[1..], radix)
  }

  function DigitChar(d: nat): (c: char)
    requires d < 10
    ensures IsDigit(c) && RadixDigitValue(c, 10) == d
  {
    ('0' as int + d) as char
  }

  /** The decimal rendering of a natural number (`String(n)`). */
  function NatToString(n: nat): (s: string)
    ensures |s| >= 1 && AllDigits(s)
    ensures s[0] == '0' <==> n == 0
    ensures n == 0 ==> s == "0"
  {
    if n < 10 then [DigitChar(n)] else NatToString(n / 10) + [DigitChar(n % 10)]
  }

  /** The decimal rendering of an integer (`String(i)` for an integral number). */
  function IntToString(i: int): string
  {
    if i < 0 then "-" + NatToString(-i) else NatToString(i)
  }

  /** `String(i)` is made of decimal digits and at most a leading '-'. */
  lemma IntToStringChars(i: int)
    ensures forall k :: 0 <= k < |IntToString(i)| ==> IsDigit(IntToString(i)[k]) || IntToString(i)[k] == '-'
  {
    if i < 0 {
      var d := NatToString(-i);
      assert forall k :: 1 <= k < |IntToString(i)| ==> IntToString(i)[k] == d[k - 1];
    }
  }

  lemma {:induction false} NatToStringValue(n: nat)
    ensures AllRadixDigits(NatToString(n), 10) && RadixValue(NatToString(n), 10) == n
  {
    var s := NatToString(n);
    if n >= 10 {
      NatToStringValue(n / 10);
      assert s[..|s| - 1] == NatToString(n / 10);
    }
  }

  /** White space and line terminators as ECMAScript's `trim` and `parseInt` skip them. */
  predicate IsJsSpace(c: char)
  {
    c == '\t' || c == '\n' || c == '\U{B}' || c == '\U{C}' || c == '\r' || c == ' '
    || c == '\U{A0}' || c == '\U{1680}' || ('\U{2000}' <= c <= '\U{200A}')
    || c == '\U{2028}' || c == '\U{2029}' || c == '\U{202F}' || c == '\U{205F}'
    || c == '\U{3000}' || c == '\U{FEFF}'
  }

  function TrimStart(s: string): (r: string)
    ensures |r| <= |s| && r == s[|s| - |r|..]
    ensures r != [] ==> !IsJsSpace(r[0])
    ensures forall i :: 0 <= i < |s| - |r| ==> IsJsSpace(s[i])
  {
    if s != [] && IsJsSpace(s[0]) then TrimStart(s[1..]) else s
  }

  function TrimEnd(s: string): (r: string)
    ensures r <= s
    ensures r != [] ==> !IsJsSpace(r[|r| - 1])
    ensures forall i :: |r| <= i < |s| ==> IsJsSpace(s[i])
  {
    if s != [] && IsJsSpace(s[|s| - 1]) then TrimEnd(s[..|s| - 1]) else s
  }

  /** `String.prototype.trim`. */
  function Trim(s: string): (r: string)
    ensures r != [] ==> !IsJsSpace(r[0]) && !IsJsSpace(r[|r| - 1])
  {
    TrimEnd(TrimStart(s))
  }

  /**
   * `parseInt(s)` with no radix: leading white space is skipped, one sign is
   * taken, a `0x`/`0X` prefix selects radix 16, and the longest run of digits
   * that follows is read. `None` stands for `NaN`.
   */
  function ParseInt(s: string): (r: Option<int>)
    ensures r.None? <==> DigitPrefix(ParseIntDigits(s).0, ParseIntDigits(s).1) == []
  {
    var t := TrimStart(s);
    var neg := |t| > 0 && t[0] == '-';
    var (body, radix) := ParseIntDigits(s);
    var digits := DigitPrefix(body, radix);
    var v: int := RadixValue(digits, radix);
    if digits == [] then None else Some(if neg then -v else v)
  }

  /** The text `parseInt` reads digits from, and the radix it reads them in. */
  function ParseIntDigits(s: string): (string, nat)
  {
    var t := TrimStart(s);
    var u := if |t| > 0 && (t[0] == '-' || t[0] == '+') then t[1..] else t;
    if |u| >= 2 && u[0] == '0' && (u[1] == 'x' || u[1] == 'X') then (u[2..], 16) else (u, 10)
  }

  lemma DigitPrefixOfDigits(s: string)
    requires AllRadixDigits(s, 10)
    ensures DigitPrefix(s, 10) == s
  {
  }

  lemma TrimStartOfNonSpace(s: string)
    requires s != [] && !IsJsSpace(s[0])
    ensures TrimStart(s) == s
  {
  }

  /** A text that starts and ends with a character that is not white space is its own `trim`. */
  lemma TrimUntouched(s: string)
    requires s != [] && !IsJsSpace(s[0]) && !IsJsSpace(s[|s| - 1])
    ensures Trim(s) == s
  {
    TrimStartOfNonSpace(s);
  }

  /** The text `parseInt` reads digits from, for a rendered natural number with or without a minus sign. */
  lemma {:induction false} ParseIntDigitsOfNat(n: nat, sign: string)
    requires sign == "" || sign == "-"
    ensures ParseIntDigits(sign + NatToString(n)) == (NatToString(n), 10)
  {
    var d := NatToString(n);
    var t := sign + d;
    assert t[0] == (if sign == "" then d[0] else '-');
    assert !IsJsSpace(t[0]);
    TrimStartOfNonSpace(t);
    var u := if t[0] == '-' || t[0] == '+' then t[1..] else t;
    assert u == d;
    assert |d| >= 2 ==> d[0] != '0';
  }

  /** `parseInt` reads back every integer that `String` renders. */
  lemma {:induction false} ParseIntOfIntToString(i: int)
    ensures ParseInt(IntToString(i)) == Some(i)
  {
    var n: nat := if i < 0 then -i else i;
    var d := NatToString(n);
    var sign := if i < 0 then "-" else "";
    var t := sign + d;
    assert IntToString(i) == t;
    assert TrimStart(t) == t && (t[0] == '-') == (i < 0) by { TrimStartOfNonSpace(t); }
    assert ParseIntDigits(t) == (d, 10) by { ParseIntDigitsOfNat(n, sign); }
    assert DigitPrefix(d, 10) == d by { DigitPrefixOfDigits(d); }
    assert RadixValue(d, 10) == n by { NatToStringValue(n); }
  }

  /**
   * `Number(s)` for a string, on the integral subset: the trimmed text must be
   * empty (0), an optionally signed run of decimal digits, or a `0x`, `0o` or
   * `0b` literal without sign. `None` stands for `NaN` (and for the decimal
   * fractions, exponents and `Infinity` spellings outside this model).
   */
  function StringToNumber(s: string): (r: Option<int>)
    ensures Trim(s) == [] ==> r == Some(0)
    ensures AllDigits(Trim(s)) ==> r == Some(RadixValue(Trim(s), 10))
  {
    var t := Trim(s);
    if t == [] then Some(0)
    else if |t| >= 2 && t[0] == '0' && (t[1] == 'x' || t[1] == 'X') then
      if |t| > 2 && AllRadixDigits(t[2..], 16) then Some(RadixValue(t[2..], 16)) else None
    else if |t| >= 2 && t[0] == '0' && (t[1] == 'o' || t[1] == 'O') then
      if |t| > 2 && AllOctal(t[2..]) then Some(RadixValue(t[2..], 8)) else None
    else if |t| >= 2 && t[0] == '0' && (t[1] == 'b' || t[1] == 'B') then
      if |t| > 2 && AllBinary(t[2..]) then Some(RadixValue(t[2..], 2)) else None
    else
      var neg := t[0] == '-';
      var u := if t[0] == '-' || t[0] == '+' then t[1..] else t;
      if u != [] && AllDigits(u) then
        assert AllRadixDigits(u, 10);
        var v: int := RadixValue(u, 10);
        Some(if neg then -v else v)
      else None
  }

  predicate AllOctal(s: string) { forall i :: 0 <= i < |s| ==> '0' <= s[i] <= '7' }
  predicate AllBinary(s: string) { forall i :: 0 <= i < |s| ==> s[i] == '0' || s[i] == '1' }

  /** `s.split(c)` for a one-character separator: the pieces between separators, in order. */
  function Split(s: string, c: char): (parts: seq<string>)
    ensures |parts| >= 1
    ensures forall i :: 0 <= i < |parts| ==> c !in parts[i]
  {
    if c !in s then [s]
    else
      var k := IndexOf(s, c);
      [s[..k]] + Split(s[k + 1..], c)
  }

  /** Index of the first occurrence of `c` in `s`. */
  function IndexOf(s: string, c: char): (k: nat)
    requires c in s
    ensures k < |s| && s[k] == c && c !in s[..k]
  {
    if s[0] == c then 0 else 1 + IndexOf(s[1..], c)
  }

  /** `parts.join(sep)`. */
  function Join(parts: seq<string>, sep: string): string
  {
    if parts == [] then "" else if |parts| == 1 then parts[0] else parts[0] + sep + Join(parts[1..], sep)
  }

  /** Joining the pieces of a split with the separator gives the original string back. */
  lemma {:induction false} JoinSplit(s: string, c: char)
    ensures Join(Split(s, c), [c]) == s
  {
    if c in s {
      var k := IndexOf(s, c);
      JoinSplit(s[k + 1..], c);
      assert s == s[..k] + [c] + s[k + 1..];
    }
  }

  predicate StartsWith(s: string, prefix: string) { prefix <= s }

  /** `s.includes(sub)`. */
  predicate Contains(s: string, sub: string)
  {
    sub <= s || (s != [] && Contains(s[1..], sub))
  }

  /** `s.replace(pat, rep)` with a string pattern: only the first occurrence of `pat` is replaced. */
  function ReplaceFirst(s: string, pat: string, rep: string): (r: string)
    ensures StartsWith(s, pat) ==> r == rep + s[|pat|..]
    ensures !Contains(s, pat) ==> r == s
  {
    if pat <= s then rep + s[|pat|..]
    else if s == [] then s
    else [s[0]] + ReplaceFirst(s[1..], pat, rep)
  }

  /** Character order, standing for the UTF-16 code-unit order of `Array.prototype.sort` with no comparator. */
  predicate LessEq(a: string, b: string)
  {
    a == [] || (b != [] && (a[0] < b[0] || (a[0] == b[0] && LessEq(a[1..], b[1..]))))
  }

  lemma {:induction false} LessEqTotal(a: string, b: string)
    ensures LessEq(a, b) || LessEq(b, a)
  {
    if a != [] && b != [] && a[0] == b[0] { LessEqTotal(a[1..], b[1..]); }
  }

  lemma {:induction false} LessEqReflexive(a: string)
    ensures LessEq(a, a)
  {
    if a != [] { LessEqReflexive(a[1..]); }
  }

  lemma {:induction false} LessEqTransitive(a: string, b: string, c: string)
    requires LessEq(a, b) && LessEq(b, c)
    ensures LessEq(a, c)
  {
    if a != [] && a[0] == b[0] && b[0] == c[0] { LessEqTransitive(a[1..], b[1..], c[1..]); }
  }

  lemma {:induction false} LessEqAntisymmetric(a: string, b: string)
    requires LessEq(a, b) && LessEq(b, a)
    ensures a == b
  {
    if a != [] { LessEqAntisymmetric(a[1..], b[1..]); }
  }

  predicate Sorted(s: seq<string>)
  {
    forall i, j :: 0 <= i < j < |s| ==> LessEq(s[i], s[j])
  }

  function Insert(x: string, s: seq<string>): seq<string>
  {
    if s == [] then [x] else if LessEq(x, s[0]) then [x] + s else [s[0]] + Insert(x, s[1..])
  }

  /** `keys.sort()`: an insertion sort in code-unit order. */
  function Sort(s: seq<string>): seq<string>
  {
    if s == [] then [] else Insert(s[0], Sort(s[1..]))
  }

  lemma {:induction false} InsertElements(x: string, s: seq<string>)
    ensures multiset(Insert(x, s)) == multiset(s) + multiset{x}
  {
    if s != [] && !LessEq(x, s[0]) {
      InsertElements(x, s[1..]);
      assert s == [s[0]] + s[1..];
    }
  }

  /** Inserting keeps the sequence sorted and adds exactly one copy of `x`. */
  lemma InsertSorted(x: string, s: seq<string>)
    requires Sorted(s)
    ensures Sorted(Insert(x, s)) && multiset(Insert(x, s)) == multiset(s) + multiset{x}
  {
    InsertElements(x, s);
    InsertOrdered(x, s);
  }

  /** Every element of `s` is at least `b`. */
  predicate AllAtLeast(b: string, s: seq<string>)
  {
    forall i :: 0 <= i < |s| ==> LessEq(b, s[i])
  }

  /** Inserting an element that is at least `b` keeps every element at least `b`. */
  lemma {:induction false} InsertAtLeast(b: string, x: string, s: seq<string>)
    requires LessEq(b, x) && AllAtLeast(b, s)
    ensures AllAtLeast(b, Insert(x, s))
  {
    if s != [] && !LessEq(x, s[0]) {
      assert AllAtLeast(b, s[1..]) by {
        forall i | 0 <= i < |s[1..]| ensures LessEq(b, s[1..][i]) { assert s[1..][i] == s[i + 1]; }
      }
      InsertAtLeast(b, x, s[1..]);
      var t := Insert(x, s[1..]);
      var r := [s[0]] + t;
      forall i | 0 <= i < |r| ensures LessEq(b, r[i]) { if i > 0 { assert r[i] == t[i - 1]; } }
    } else if s != [] {
      var r := [x] + s;
      forall i | 0 <= i < |r| ensures LessEq(b, r[i]) { if i > 0 { assert r[i] == s[i - 1]; } }
    }
  }

  /** Inserting into a sorted sequence keeps it sorted. */
  lemma {:induction false} InsertOrdered(x: string, s: seq<string>)
    requires Sorted(s)
    ensures Sorted(Insert(x, s))
  {
    if s == [] {
    } else if LessEq(x, s[0]) {
      var r := [x] + s;
      forall i, j | 0 <= i < j < |r| ensures LessEq(r[i], r[j])
      {
        if i == 0 && j > 1 { LessEqTransitive(x, s[0], s[j - 1]); }
      }
    } else {
      var rest := s[1..];
      assert Sorted(rest) by {
        forall i, j | 0 <= i < j < |rest| ensures LessEq(rest[i], rest[j]) { assert rest[i] == s[i + 1] && rest[j] == s[j + 1]; }
      }
      assert AllAtLeast(s[0], rest) by {
        forall j | 0 <= j < |rest| ensures LessEq(s[0], rest[j]) { assert rest[j] == s[j + 1]; }
      }
      InsertOrdered(x, rest);
      LessEqTotal(x, s[0]);
      InsertAtLeast(s[0], x, rest);
      var t := Insert(x, rest);
      var r := [s[0]] + t;
      forall i, j | 0 <= i < j < |r| ensures LessEq(r[i], r[j])
      {
        if i > 0 { assert r[i] == t[i - 1] && r[j] == t[j - 1]; } else { assert r[j] == t[j - 1]; }
      }
    }
  }

  /** The sorted keys are in order and are exactly the keys given, duplicates included. */
  lemma {:induction false} SortSpec(s: seq<string>)
    ensures Sorted(Sort(s)) && multiset(Sort(s)) == multiset(s)
  {
    if s != [] {
      SortSpec(s[1..]);
      InsertSorted(s[0], Sort(s[1..]));
      assert s == [s[0]] + s[1..];
    }
  }

  lemma SortedHeadIsLeast(a: seq<string>, x: string)
    requires Sorted(a) && a != [] && x in multiset(a)
    ensures LessEq(a[0], x)
  {
    var i :| 0 <= i < |a| && a[i] == x;
    if i == 0 { LessEqReflexive(x); }
  }

  lemma MultisetTail(a: seq<string>)
    requires a != []
    ensures multiset(a[1..]) == multiset(a) - multiset{a[0]}
  {
    assert a == [a[0]] + a[1..];
  }

  /** Two sorted sequences with the same elements are equal: the sorted order is unique. */
  lemma {:induction false} SortedUnique(a: seq<string>, b: seq<string>)
    requires Sorted(a) && Sorted(b) && multiset(a) == multiset(b)
    ensures a == b
  {
    assert |a| == |multiset(a)| == |multiset(b)| == |b|;
    if a != [] {
      assert a[0] in multiset(b) && b[0] in multiset(a);
      SortedHeadIsLeast(a, b[0]);
      SortedHeadIsLeast(b, a[0]);
      LessEqAntisymmetric(a[0], b[0]);
      MultisetTail(a);
      MultisetTail(b);
      SortedUnique(a[1..], b[1..]);
      assert a == [a[0]] + a[1..] && b == [b[0]] + b[1..];
    }
  }

  /** Sorting depends only on the elements given, not on the order they come in. */
  lemma SortPermutation(a: seq<string>, b: seq<string>)
    requires multiset(a) == multiset(b)
    ensures Sort(a) == Sort(b)
  {
    SortSpec(a);
    SortSpec(b);
    SortedUnique(Sort(a), Sort(b));
  }

  /** UTF-16 code units of one character: two for characters outside the Basic Multilingual Plane. */
  function Utf16Units(c: char): nat
  {
    if c as int >= 0x10000 then 2 else 1
  }

  /** `s.length`: the number of UTF-16 code units. */
  function Utf16Length(s: string): (n: nat)
    ensures |s| <= n <= 2 * |s|
  {
    if s == [] then 0 else Utf16Length(s[..|s| - 1]) + Utf16Units(s[|s| - 1])
  }

  /** `s.substring(0, n)`, on whole characters: the longest prefix of at most `n` code units. */
  function Utf16Prefix(s: string, n: nat): (p: string)
    ensures p <= s && Utf16Length(p) <= n
    ensures Utf16Length(s) <= n ==> p == s
    ensures s != [] && n >= 2 ==> p != []
  {
    if Utf16Length(s) <= n then s else Utf16Prefix(s[..|s| - 1], n)
  }
}
