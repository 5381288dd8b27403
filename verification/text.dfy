/**
 * The JavaScript string operations the site's handlers rely on, written as
 * total functions on `string` (a sequence of characters): `trim`,
 * `toLowerCase`/`toUpperCase` (ASCII letters only), `includes`, `split`,
 * `join`, `replace(/\./g, '_')`, the default `<` ordering used by
 * `Array.prototype.sort`, and decimal formatting of a time stamp.
 */
module Text {

  /** ECMAScript WhiteSpace and LineTerminator code points, which `trim` removes. */
  predicate IsWhitespace(c: char) {
    || c == '\t' || c == '\n' || c == '\U{000B}' || c == '\U{000C}' || c == '\r' || c == ' '
    || c == '\U{00A0}' || c == '\U{1680}' || ('\U{2000}' <= c <= '\U{200A}')
    || c == '\U{2028}' || c == '\U{2029}' || c == '\U{202F}' || c == '\U{205F}'
    || c == '\U{3000}' || c == '\U{FEFF}'
  }

  predicate AllWhitespace(s: string) {
    forall i :: 0 <= i < |s| ==> IsWhitespace(s[i])
  }

  /** Neither end of `s` is whitespace: `trim` has nothing to remove. */
  predicate IsTrimmed(s: string) {
    |s| > 0 ==> !IsWhitespace(s[0]) && !IsWhitespace(s[|s| - 1])
  }

  /** Number of whitespace characters at the front of `s`. */
  function LeadingWhitespace(s: string): (n: nat)
    ensures n <= |s|
    ensures forall k :: 0 <= k < n ==> IsWhitespace(s[k])
    ensures n < |s| ==> !IsWhitespace(s[n])
    decreases |s|
  {
    if |s| > 0 && IsWhitespace(s[0]) then 1 + LeadingWhitespace(s[1..]) else 0
  }

  /** Number of whitespace characters at the back of `s`. */
  function TrailingWhitespace(s: string): (n: nat)
    ensures n <= |s|
    ensures forall k :: |s| - n <= k < |s| ==> IsWhitespace(s[k])
    ensures n < |s| ==> !IsWhitespace(s[|s| - n - 1])
    decreases |s|
  {
    if |s| > 0 && IsWhitespace(s[|s| - 1]) then 1 + TrailingWhitespace(s[..|s| - 1]) else 0
  }

  /**
   * `String.prototype.trim`: the slice of `s` left after removing whitespace
   * from both ends.
   */
  function Trim(s: string): (r: string)
    ensures IsTrimmed(r)
    ensures exists i, j :: 0 <= i <= j <= |s| && r == s[i..j]
                           && AllWhitespace(s[..i]) && AllWhitespace(s[j..])
  {
    var i := LeadingWhitespace(s);
    var t := s[i..];
    var n := TrailingWhitespace(t);
    var j := i + (|t| - n);
    assert s[i..j] == t[..|t| - n];
    assert AllWhitespace(s[..i]);
    assert AllWhitespace(s[j..]) by {
      forall k | 0 <= k < |s[j..]| ensures IsWhitespace(s[j..][k]) {
        assert s[j..][k] == t[|t| - n + k];
      }
    }
    s[i..j]
  }

  /** Trimming text that is already trimmed changes nothing. */
  lemma TrimOfTrimmed(s: string)
    requires IsTrimmed(s)
    ensures Trim(s) == s
  {
    assert LeadingWhitespace(s) == 0;
    assert TrailingWhitespace(s) == 0;
  }

  /** `trim` is idempotent. */
  lemma TrimIdempotent(s: string)
    ensures Trim(Trim(s)) == Trim(s)
  {
    TrimOfTrimmed(Trim(s));
  }

  /** Leading whitespace in front of trimmed text is exactly what `trim` removes. */
  lemma TrimAfterWhitespace(w: string, t: string)
    requires AllWhitespace(w) && IsTrimmed(t)
    ensures Trim(w + t) == t
  {
    var s := w + t;
    LeadingAfterWhitespace(w, t);
    assert s[|w|..] == t;
    TrimOfTrimmed(t);
    assert TrailingWhitespace(t) == 0;
  }

  lemma {:induction false} LeadingAfterWhitespace(w: string, t: string)
    requires AllWhitespace(w) && IsTrimmed(t)
    ensures LeadingWhitespace(w + t) == |w|
    decreases |w|
  {
    if |w| > 0 {
      assert (w + t)[1..] == w[1..] + t;
      LeadingAfterWhitespace(w[1..], t);
    } else {
      assert w + t == t;
    }
  }

  /** A string trims to nothing exactly when it is all whitespace (the "blank" test). */
  lemma TrimEmptyIffBlank(s: string)
    ensures Trim(s) == "" <==> AllWhitespace(s)
  {
    if AllWhitespace(s) {
      AllLeading(s);
    }
    if Trim(s) == "" {
      var i, j :| 0 <= i <= j <= |s| && Trim(s) == s[i..j]
                  && AllWhitespace(s[..i]) && AllWhitespace(s[j..]);
      forall k | 0 <= k < |s| ensures IsWhitespace(s[k]) {
        if k < i {
          assert s[..i][k] == s[k];
        } else {
          assert s[j..][k - j] == s[k];
        }
      }
    }
  }

  lemma {:induction false} AllLeading(s: string)
    requires AllWhitespace(s)
    ensures LeadingWhitespace(s) == |s|
    decreases |s|
  {
    if |s| > 0 {
      AllLeading(s[1..]);
    }
  }

  /** True when the text has no non-whitespace character (`!s.trim()`). */
  predicate IsBlank(s: string) {
    Trim(s) == ""
  }

  /** `toLowerCase` on one character; only ASCII letters are mapped. */
  function LowerChar(c: char): char {
    if 'A' <= c <= 'Z' then (c as int + 32) as char else c
  }

  /** `toUpperCase` on one character; only ASCII letters are mapped. */
  function UpperChar(c: char): char {
    if 'a' <= c <= 'z' then (c as int - 32) as char else c
  }

  /** `String.prototype.toLowerCase` (ASCII letters only). */
  function Lower(s: string): (r: string)
    ensures |r| == |s|
    ensures forall i :: 0 <= i < |s| ==> r[i] == LowerChar(s[i])
    ensures forall i :: 0 <= i < |r| ==> !('A' <= r[i] <= 'Z')
    decreases |s|
  {
    if |s| == 0 then "" else [LowerChar(s[0])] + Lower(s[1..])
  }

  lemma LowerIdempotent(s: string)
    ensures Lower(Lower(s)) == Lower(s)
  {
  }

  /** `s` begins with `prefix`. */
  predicate StartsWith(s: string, prefix: string) {
    |prefix| <= |s| && s[..|prefix|] == prefix
  }

  /** `String.prototype.includes`: `needle` occurs somewhere in `hay`. */
  predicate Contains(hay: string, needle: string)
    decreases |hay|
  {
    StartsWith(hay, needle) || (|hay| > 0 && Contains(hay[1..], needle))
  }

  /** `needle` occurs in `hay` starting at position `i`. */
  predicate OccursAt(hay: string, needle: string, i: int) {
    0 <= i && i + |needle| <= |hay| && hay[i..i + |needle|] == needle
  }

  /** `Contains` agrees with the positional definition of a substring. */
  lemma {:induction false} ContainsIffOccurrence(hay: string, needle: string)
    ensures Contains(hay, needle) <==> exists i :: OccursAt(hay, needle, i)
    decreases |hay|
  {
    if StartsWith(hay, needle) {
      assert OccursAt(hay, needle, 0);
    }
    if |hay| > 0 {
      ContainsIffOccurrence(hay[1..], needle);
      if exists i :: OccursAt(hay, needle, i) {
        var i :| OccursAt(hay, needle, i);
        if i > 0 {
          assert hay[1..][i - 1..i - 1 + |needle|] == needle;
          assert OccursAt(hay[1..], needle, i - 1);
        }
      }
      if Contains(hay[1..], needle) {
        var i :| OccursAt(hay[1..], needle, i);
        assert hay[i + 1..i + 1 + |needle|] == needle;
        assert OccursAt(hay, needle, i + 1);
      }
    } else {
      if exists i :: OccursAt(hay, needle, i) {
        var i :| OccursAt(hay, needle, i);
        assert StartsWith(hay, needle);
      }
    }
  }

  /** The empty string is included in every string. */
  lemma ContainsEmpty(hay: string)
    ensures Contains(hay, "")
  {
    assert StartsWith(hay, "");
  }

  /** `s.replace(/from/g, to)` for a one-character pattern. */
  function ReplaceChar(s: string, from: char, to: char): (r: string)
    ensures |r| == |s|
    ensures forall i :: 0 <= i < |s| ==> r[i] == (if s[i] == from then to else s[i])
    decreases |s|
  {
    if |s| == 0 then "" else [if s[0] == from then to else s[0]] + ReplaceChar(s[1..], from, to)
  }

  /** `s.replace(/\./g, '_')`, the key sanitisation used for the realtime store. */
  function ReplaceDots(s: string): (r: string)
    ensures |r| == |s|
    ensures '.' !in r
    ensures forall i :: 0 <= i < |s| && s[i] != '.' ==> r[i] == s[i]
    ensures forall i :: 0 <= i < |s| && s[i] == '.' ==> r[i] == '_'
  {
    ReplaceChar(s, '.', '_')
  }

  /** `c` is one of the two characters the sanitisation does not tell apart. */
  predicate DotLike(c: char) {
    c == '.' || c == '_'
  }

  /**
   * Two texts sanitise to the same key exactly when they have the same
   * length and differ only where both hold a '.' or a '_'.
   */
  lemma ReplaceDotsSameKey(a: string, b: string)
    ensures ReplaceDots(a) == ReplaceDots(b) <==>
      |a| == |b| && forall i :: 0 <= i < |a| ==> a[i] == b[i] || (DotLike(a[i]) && DotLike(b[i]))
  {
    var ra, rb := ReplaceDots(a), ReplaceDots(b);
    if ra == rb {
      forall i | 0 <= i < |a| ensures a[i] == b[i] || (DotLike(a[i]) && DotLike(b[i])) {
        assert ra[i] == rb[i];
      }
    }
    if |a| == |b| && forall i :: 0 <= i < |a| ==> a[i] == b[i] || (DotLike(a[i]) && DotLike(b[i])) {
      forall i | 0 <= i < |a| ensures ra[i] == rb[i] {
      }
    }
  }

  /** Replacing dots is idempotent: a sanitised key is its own sanitisation. */
  lemma ReplaceDotsIdempotent(s: string)
    ensures ReplaceDots(ReplaceDots(s)) == ReplaceDots(s)
  {
  }

  /** Sanitisation distributes over concatenation, so it can be applied per path segment. */
  lemma {:induction false} ReplaceDotsAppend(a: string, b: string)
    ensures ReplaceDots(a + b) == ReplaceDots(a) + ReplaceDots(b)
  {
  }

  /** Index of the first occurrence of `c` in `s`. */
  function IndexOf(s: string, c: char): (i: nat)
    requires c in s
    ensures i < |s| && s[i] == c && c !in s[..i]
  {
    if s[0] == c then 0 else 1 + IndexOf(s[1..], c)
  }

  /** `s.split(sep)` for a one-character separator: the pieces between separators. */
  function Split(s: string, sep: char): (r: seq<string>)
    ensures |r| >= 1
    ensures forall k :: 0 <= k < |r| ==> sep !in r[k]
    decreases |s|
  {
    if sep in s then
      var i := IndexOf(s, sep);
      [s[..i]] + Split(s[i + 1..], sep)
    else [s]
  }

  /** `parts.join(sep)`. */
  function Join(parts: seq<string>, sep: string): string
    decreases |parts|
  {
    if |parts| == 0 then ""
    else if |parts| == 1 then parts[0]
    else parts[0] + sep + Join(parts[1..], sep)
  }

  /** Splitting and re-joining with the same separator gives back the text. */
  lemma {:induction false} JoinSplit(s: string, sep: char)
    ensures Join(Split(s, sep), [sep]) == s
    decreases |s|
  {
    if sep in s {
      var i := IndexOf(s, sep);
      var rest := Split(s[i + 1..], sep);
      var parts := [s[..i]] + rest;
      assert Split(s, sep) == parts;
      assert |parts| >= 2 && parts[0] == s[..i] && parts[1..] == rest;
      assert Join(parts, [sep]) == s[..i] + [sep] + Join(rest, [sep]);
      JoinSplit(s[i + 1..], sep);
      assert s == s[..i] + [sep] + s[i + 1..];
    }
  }

  /** The first piece of a split on `sep` is the text before the first separator. */
  lemma SplitAfterPiece(a: string, sep: char, b: string)
    requires sep !in a
    ensures Split(a + [sep] + b, sep) == [a] + Split(b, sep)
  {
    var s := a + [sep] + b;
    assert s[|a|] == sep;
    var i := IndexOf(s, sep);
    assert s[..i] == a;
    assert s[i + 1..] == b;
  }

  /** Splitting at a separator splits each side on its own. */
  lemma {:induction false} SplitConcat(x: string, sep: char, y: string)
    ensures Split(x + [sep] + y, sep) == Split(x, sep) + Split(y, sep)
    decreases |x|
  {
    if sep in x {
      var i := IndexOf(x, sep);
      var head, tail := x[..i], x[i + 1..];
      assert Split(x, sep) == [head] + Split(tail, sep) by {
        assert x == head + [sep] + tail;
        SplitAfterPiece(head, sep, tail);
      }
      assert Split(x + [sep] + y, sep) == [head] + Split(tail + [sep] + y, sep) by {
        assert x + [sep] + y == head + [sep] + (tail + [sep] + y);
        SplitAfterPiece(head, sep, tail + [sep] + y);
      }
      SplitConcat(tail, sep, y);
    } else {
      SplitAfterPiece(x, sep, y);
    }
  }

  /** `s.split(sep)[0]`: the text before the first `sep`, or all of it. */
  function BeforeFirst(s: string, sep: char): (r: string)
    ensures sep !in r
    ensures StartsWith(s, r)
    ensures |r| < |s| ==> s[|r|] == sep
  {
    if sep in s then s[..IndexOf(s, sep)] else s
  }

  /**
   * JavaScript's default string order (`a < b`, used by `sort()` without a
   * comparator): lexicographic by character, a proper prefix first.
   */
  predicate Less(a: string, b: string)
    decreases |a|
  {
    if |a| == 0 then |b| > 0
    else if |b| == 0 then false
    else if a[0] != b[0] then a[0] < b[0]
    else Less(a[1..], b[1..])
  }

  lemma {:induction false} LessIrreflexive(a: string)
    ensures !Less(a, a)
    decreases |a|
  {
    if |a| > 0 {
      LessIrreflexive(a[1..]);
    }
  }

  lemma {:induction false} LessAsymmetric(a: string, b: string)
    requires Less(a, b)
    ensures !Less(b, a)
    decreases |a|
  {
    if |a| > 0 && |b| > 0 && a[0] == b[0] {
      LessAsymmetric(a[1..], b[1..]);
    }
  }

  /** Two different strings are always ordered one way or the other. */
  lemma {:induction false} LessTotal(a: string, b: string)
    requires a != b
    ensures Less(a, b) || Less(b, a)
    decreases |a|
  {
    if |a| > 0 && |b| > 0 && a[0] == b[0] {
      assert a == [a[0]] + a[1..];
      assert b == [b[0]] + b[1..];
      LessTotal(a[1..], b[1..]);
    }
  }

  /** The digit character for `d`. */
  function Digit(d: nat): char
    requires d < 10
  {
    "0123456789"[d]
  }

  function DigitValue(c: char): nat {
    if '0' <= c <= '9' then c as nat - '0' as nat else 0
  }

  predicate IsDigit(c: char) {
    '0' <= c <= '9'
  }

  /** Decimal rendering of a non-negative integer, as a template literal prints it. */
  function Decimal(n: nat): (r: string)
    ensures |r| >= 1
    ensures forall k :: 0 <= k < |r| ==> IsDigit(r[k])
    ensures |r| > 1 ==> r[0] != '0'
    decreases n
  {
    if n < 10 then [Digit(n)] else Decimal(n / 10) + [Digit(n % 10)]
  }

  /** The numeric value of a string of digits. */
  function DecimalValue(s: string): nat
    decreases |s|
  {
    if |s| == 0 then 0 else 10 * DecimalValue(s[..|s| - 1]) + DigitValue(s[|s| - 1])
  }

  /** Reading back a rendered number gives the number: distinct stamps give distinct ids. */
  lemma {:induction false} DecimalRoundTrip(n: nat)
    ensures DecimalValue(Decimal(n)) == n
    decreases n
  {
    if n >= 10 {
      DecimalRoundTrip(n / 10);
      var r := Decimal(n);
      assert r[..|r| - 1] == Decimal(n / 10);
    }
  }

  /** JavaScript `a || b` on strings: `a` unless it is empty (falsy). */
  function OrElse(a: string, b: string): (r: string)
    ensures r == a || r == b
    ensures a != "" ==> r == a
  {
    if a != "" then a else b
  }
}
