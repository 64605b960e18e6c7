/**
 * Character-level string operations shared by the Python and JavaScript
 * models: splitting on a separator, joining, substring tests, ASCII case
 * mapping, whitespace trimming and decimal digits.
 */
module Text {

  // ---------------------------------------------------------------------------
  // Characters

  predicate IsDigit(c: char) { '0' <= c <= '9' }

  predicate AllDigits(s: string) { forall i :: 0 <= i < |s| ==> IsDigit(s[i]) }

  /** ASCII whitespace: space, tab, line feed, vertical tab, form feed, carriage return. */
  predicate IsSpace(c: char) { c == ' ' || '\t' <= c <= '\r' }

  function DigitOf(c: char): (d: nat)
    requires IsDigit(c)
    ensures d < 10
  {
    c as int - '0' as int
  }

  function DigitChar(d: nat): (c: char)
    requires d < 10
    ensures IsDigit(c) && DigitOf(c) == d
  {
    ('0' as int + d) as char
  }

  function UpperChar(c: char): char {
    if 'a' <= c <= 'z' then (c as int - 32) as char else c
  }

  function LowerChar(c: char): char {
    if 'A' <= c <= 'Z' then (c as int + 32) as char else c
  }

  /** `str.upper()` / `String.prototype.toUpperCase()` restricted to ASCII letters. */
  function Upper(s: string): (r: string)
    ensures |r| == |s|
    ensures forall i :: 0 <= i < |s| ==> r[i] == UpperChar(s[i])
  {
    seq(|s|, i requires 0 <= i < |s| => UpperChar(s[i]))
  }

  /** `str.lower()` / `String.prototype.toLowerCase()` restricted to ASCII letters. */
  function Lower(s: string): (r: string)
    ensures |r| == |s|
    ensures forall i :: 0 <= i < |s| ==> r[i] == LowerChar(s[i])
  {
    seq(|s|, i requires 0 <= i < |s| => LowerChar(s[i]))
  }

  // ---------------------------------------------------------------------------
  // Prefixes and substrings

  /** Regrouping a concatenation, for the steps the solver does not take by itself. */
  lemma Associative<T>(a: seq<T>, b: seq<T>, c: seq<T>)
    ensures a + (b + c) == a + b + c
  {
  }

  predicate StartsWith(s: string, p: string) {
    |p| <= |s| && s[..|p|] == p
  }

  predicate EndsWith(s: string, p: string) {
    |p| <= |s| && s[|s| - |p|..] == p
  }

  lemma EndsWithAppend(a: string, b: string)
    ensures EndsWith(a + b, b)
  {
    assert (a + b)[|a|..] == b;
  }

  /** `sub in s` (Python) and `s.includes(sub)` (JavaScript). */
  predicate Contains(s: string, sub: string)
    decreases |s|
  {
    StartsWith(s, sub) || (|s| > 0 && Contains(s[1..], sub))
  }

  lemma {:induction false} ContainsAt(s: string, sub: string, i: nat)
    requires i + |sub| <= |s| && s[i..i + |sub|] == sub
    ensures Contains(s, sub)
    decreases i
  {
    if i > 0 {
      assert s[1..][i - 1..i - 1 + |sub|] == sub;
      ContainsAt(s[1..], sub, i - 1);
    }
  }

  /** A string that contains a longer needle contains each of its prefixes. */
  lemma {:induction false} ContainsPrefixOfNeedle(s: string, sub: string, p: string)
    requires Contains(s, sub) && StartsWith(sub, p)
    ensures Contains(s, p)
    decreases |s|
  {
    if StartsWith(s, sub) {
      assert s[..|p|] == sub[..|p|];
    } else {
      ContainsPrefixOfNeedle(s[1..], sub, p);
    }
  }

  // ---------------------------------------------------------------------------
  // Whitespace

  /** Drops leading ASCII whitespace (the first step of JavaScript `parseInt`). */
  function TrimStart(s: string): (r: string)
    ensures |r| <= |s| && r == s[|s| - |r|..]
    ensures r == [] || !IsSpace(r[0])
    decreases |s|
  {
    if |s| > 0 && IsSpace(s[0]) then TrimStart(s[1..]) else s
  }

  /** Drops trailing ASCII whitespace. */
  function TrimEnd(s: string): (r: string)
    ensures |r| <= |s| && r == s[..|r|]
    ensures r == [] || !IsSpace(r[|r| - 1])
    decreases |s|
  {
    if |s| > 0 && IsSpace(s[|s| - 1]) then TrimEnd(s[..|s| - 1]) else s
  }

  /** Python `str.strip()` and JavaScript `String.prototype.trim()` on ASCII whitespace. */
  function Strip(s: string): string {
    TrimEnd(TrimStart(s))
  }

  /** Python `str.rstrip(c)`: drops every trailing occurrence of `c`. */
  function RStripChar(s: string, c: char): (r: string)
    ensures |r| <= |s| && r == s[..|r|]
    ensures r == [] || r[|r| - 1] != c
    ensures forall i :: |r| <= i < |s| ==> s[i] == c
    decreases |s|
  {
    if |s| > 0 && s[|s| - 1] == c then RStripChar(s[..|s| - 1], c) else s
  }

  // ---------------------------------------------------------------------------
  // Split and join (Python `str.split(sep)` and JavaScript `split(sep)` agree
  // for a non-empty separator: left to right, non-overlapping, empty pieces kept)

  function Split(s: string, sep: string): (parts: seq<string>)
    requires |sep| > 0
    ensures |parts| >= 1
    decreases |s|
  {
    if StartsWith(s, sep) then [""] + Split(s[|sep|..], sep)
    else if |s| == 0 then [""]
    else
      var rest := Split(s[1..], sep);
      [[s[0]] + rest[0]] + rest[1..]
  }

  /** `sep.join(parts)` (Python) and `parts.join(sep)` (JavaScript). */
  function Join(parts: seq<string>, sep: string): string
    decreases |parts|
  {
    if |parts| == 0 then ""
    else if |parts| == 1 then parts[0]
    else parts[0] + sep + Join(parts[1..], sep)
  }

  /** Splitting a piece free of the one-character separator, glued to the rest, cuts exactly there. */
  lemma {:induction false} SplitAfterPiece(a: string, c: char, b: string)
    requires c !in a
    ensures Split(a + [c] + b, [c]) == [a] + Split(b, [c])
    decreases |a|
  {
    if |a| == 0 {
      assert a + [c] + b == [c] + b;
      assert StartsWith([c] + b, [c]);
      assert ([c] + b)[1..] == b;
    } else {
      var s := a + [c] + b;
      assert s[0] == a[0] && a[0] != c;
      assert !StartsWith(s, [c]);
      assert s[1..] == a[1..] + [c] + b;
      SplitAfterPiece(a[1..], c, b);
      assert [s[0]] + a[1..] == a;
    }
  }

  /** A string free of the one-character separator splits into itself. */
  lemma {:induction false} SplitNoSeparator(a: string, c: char)
    requires c !in a
    ensures Split(a, [c]) == [a]
    decreases |a|
  {
    if |a| > 0 {
      assert a[0] != c && !StartsWith(a, [c]);
      SplitNoSeparator(a[1..], c);
      assert [a[0]] + a[1..] == a;
    }
  }

  /** Splitting a join on a one-character separator that no piece contains recovers the pieces. */
  lemma {:induction false} SplitJoin(parts: seq<string>, c: char)
    requires |parts| >= 1
    requires forall i :: 0 <= i < |parts| ==> c !in parts[i]
    ensures Split(Join(parts, [c]), [c]) == parts
    decreases |parts|
  {
    if |parts| == 1 {
      SplitNoSeparator(parts[0], c);
    } else {
      SplitJoin(parts[1..], c);
      SplitAfterPiece(parts[0], c, Join(parts[1..], [c]));
      assert [parts[0]] + parts[1..] == parts;
    }
  }

  /** No piece of a split on a one-character separator contains the separator. */
  lemma {:induction false} SplitPiecesFree(s: string, c: char)
    ensures forall i :: 0 <= i < |Split(s, [c])| ==> c !in Split(s, [c])[i]
    decreases |s|
  {
    if StartsWith(s, [c]) {
      SplitPiecesFree(s[1..], c);
    } else if |s| > 0 {
      SplitPiecesFree(s[1..], c);
      assert s[0] != c;
    }
  }

  /** Joining a non-empty prefix with one more piece puts the separator before it. */
  lemma {:induction false} JoinSnoc(init: seq<string>, x: string, sep: string)
    requires |init| >= 1
    ensures Join(init + [x], sep) == Join(init, sep) + sep + x
    decreases |init|
  {
    if |init| > 1 {
      assert (init + [x])[1..] == init[1..] + [x];
      JoinSnoc(init[1..], x, sep);
    }
  }

  /** Joining two non-empty runs of pieces puts one separator between their joins. */
  lemma {:induction false} JoinAppend(a: seq<string>, b: seq<string>, sep: string)
    requires |a| >= 1 && |b| >= 1
    ensures Join(a + b, sep) == Join(a, sep) + sep + Join(b, sep)
    decreases |a|
  {
    if |a| == 1 {
      assert (a + b)[1..] == b;
    } else {
      assert (a + b)[1..] == a[1..] + b;
      JoinAppend(a[1..], b, sep);
    }
  }

  /** A join of two or more pieces ends with the separator and the last piece. */
  lemma JoinEndsWithLast(init: seq<string>, last: string, c: char)
    requires |init| >= 1
    ensures EndsWith(Join(init + [last], [c]), [c] + last)
  {
    JoinSnoc(init, last, [c]);
    var j := Join(init, [c]);
    Associative(j, [c], last);
    EndsWithAppend(j, [c] + last);
  }

  /** Joining the pieces of a split on a one-character separator gives the string back. */
  lemma {:induction false} JoinSplit(s: string, c: char)
    ensures Join(Split(s, [c]), [c]) == s
    decreases |s|
  {
    if StartsWith(s, [c]) {
      var rest := Split(s[1..], [c]);
      JoinSplit(s[1..], c);
      assert ([""] + rest)[1..] == rest;
      assert s == [c] + s[1..];
    } else if |s| > 0 {
      var rest := Split(s[1..], [c]);
      JoinSplit(s[1..], c);
      var parts := [[s[0]] + rest[0]] + rest[1..];
      if |rest| > 1 {
        assert parts[1..] == rest[1..];
      }
      assert s == [s[0]] + s[1..];
    }
  }

  /** The join of the first `k` pieces is a prefix of the join of all of them. */
  lemma {:induction false} JoinPrefix(parts: seq<string>, k: nat, sep: string)
    requires k <= |parts|
    ensures StartsWith(Join(parts, sep), Join(parts[..k], sep))
    decreases k
  {
    if k == 1 {
      assert parts[..1] == [parts[0]];
    } else if k > 1 {
      JoinPrefix(parts[1..], k - 1, sep);
      assert parts[..k][1..] == parts[1..][..k - 1];
      var tail := Join(parts[1..], sep);
      var head := Join(parts[1..][..k - 1], sep);
      assert tail[..|head|] == head;
      assert (parts[0] + sep + tail)[..|parts[0] + sep + head|] == parts[0] + sep + head;
    }
  }

  /** A last piece free of the one-character separator splits off as the last part. */
  lemma {:induction false} SplitBeforePiece(a: string, c: char, b: string)
    requires c !in b
    ensures Split(a + [c] + b, [c]) == Split(a, [c]) + [b]
    decreases |a|
  {
    var s := a + [c] + b;
    if |a| == 0 {
      assert s == [c] + b && StartsWith(s, [c]) && s[1..] == b;
      SplitNoSeparator(b, c);
    } else if a[0] == c {
      assert StartsWith(s, [c]) && StartsWith(a, [c]);
      assert s[1..] == a[1..] + [c] + b;
      SplitBeforePiece(a[1..], c, b);
      assert Split(s, [c]) == [""] + (Split(a[1..], [c]) + [b]);
    } else {
      assert s[0] == a[0] && !StartsWith(s, [c]) && !StartsWith(a, [c]);
      assert s[1..] == a[1..] + [c] + b;
      SplitBeforePiece(a[1..], c, b);
      var inner := Split(a[1..], [c]);
      assert (inner + [b])[1..] == inner[1..] + [b];
    }
  }

  // ---------------------------------------------------------------------------
  // Decimal digits

  /** The value of a string of decimal digits, most significant first. */
  function DigitsValue(s: string): nat
    requires AllDigits(s)
    decreases |s|
  {
    if |s| == 0 then 0 else DigitsValue(s[..|s| - 1]) * 10 + DigitOf(s[|s| - 1])
  }

  /** `n.toString()` / `str(n)` for a natural number. */
  function NatToString(n: nat): (s: string)
    ensures |s| >= 1 && AllDigits(s)
    ensures |s| > 1 ==> s[0] != '0'
    ensures n < 10 <==> |s| == 1
    decreases n
  {
    if n < 10 then [DigitChar(n)] else NatToString(n / 10) + [DigitChar(n % 10)]
  }

  /** A string of digits holds no other character. */
  lemma DigitsFree(s: string, c: char)
    requires AllDigits(s) && !IsDigit(c)
    ensures c !in s
  {
    forall i | 0 <= i < |s|
      ensures s[i] != c
    {
      assert IsDigit(s[i]);
    }
  }

  /** Reading back the digits of a natural number gives the number. */
  lemma {:induction false} NatToStringValue(n: nat)
    ensures DigitsValue(NatToString(n)) == n
    decreases n
  {
    var s := NatToString(n);
    if n < 10 {
      assert s[..0] == [];
    } else {
      NatToStringValue(n / 10);
      assert s[..|s| - 1] == NatToString(n / 10);
    }
  }

  lemma {:induction false} NatToStringLength(n: nat)
    ensures n < 10 ==> |NatToString(n)| == 1
    ensures 10 <= n < 100 ==> |NatToString(n)| == 2
    ensures 100 <= n < 1000 ==> |NatToString(n)| == 3
  {
    if n >= 10 {
      NatToStringLength(n / 10);
    }
  }

  /** `str(i)` for any integer. */
  function IntToString(i: int): (s: string)
    ensures i >= 0 ==> s == NatToString(i)
    ensures i < 0 ==> s == "-" + NatToString(-i)
  {
    if i < 0 then "-" + NatToString(-i) else NatToString(i)
  }

  /** JavaScript `n.toString().padStart(2, '0')`. */
  function PadTwo(n: nat): (s: string)
    ensures |s| >= 2 && AllDigits(s)
    ensures n < 100 ==> |s| == 2
    ensures DigitsValue(s) == n
  {
    NatToStringLength(n);
    NatToStringValue(n);
    var d := NatToString(n);
    if |d| < 2 then
      assert ("0" + d)[..1] == "0";
      "0" + d
    else d
  }
}
