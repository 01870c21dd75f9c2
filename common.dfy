/** Value types shared by every page, and the handful of JavaScript string
    operations the pages rely on (`trim`, `toLowerCase`, `includes`,
    `startsWith`, `indexOf`, `split`, `join`, `parseInt`, number printing),
    written out so that their edge cases are explicit. */
module Common {

  datatype Option<T> = None | Some(value: T)

  /** A write sent to the gateway by an admin form: a new row, or an update
      of the row with the given id. */
  datatype Write<P> = Insert(payload: P) | Update(id: string, payload: P)

  /** JavaScript truthiness of a possibly-null string. */
  predicate Truthy(s: Option<string>) {
    s.Some? && s.value != ""
  }

  /** No element is listed twice. */
  predicate Distinct<T(==)>(s: seq<T>) {
    forall i, j :: 0 <= i < j < |s| ==> s[i] != s[j]
  }

  /** In a list without repeats no element occurs before its own place. */
  lemma DistinctPrefixLast<T>(s: seq<T>, n: nat)
    requires Distinct(s) && 0 < n <= |s|
    ensures s[n - 1] !in s[..n - 1]
  {
    var p := s[..n - 1];
    forall k | 0 <= k < |p| ensures p[k] != s[n - 1] {
      assert p[k] == s[k];
    }
  }

  /** A prefix one longer is the prefix and its last element. */
  lemma TakeSnoc<T>(s: seq<T>, n: nat)
    requires 0 < n <= |s|
    ensures s[..n] == s[..n - 1] + [s[n - 1]]
  {
  }

  /** `s || fallback` for a possibly-null string. */
  function OrElse(s: Option<string>, fallback: string): string {
    if Truthy(s) then s.value else fallback
  }

  /** `s || null` for a form string. */
  function OrNull(s: string): Option<string> {
    if s == "" then None else Some(s)
  }

  // ---------------------------------------------------------------------
  // Characters

  /** ECMAScript WhiteSpace and LineTerminator code points (what `trim`
      removes): TAB, LF, VT, FF, CR, the Zs category, U+2028, U+2029 and
      U+FEFF. */
  predicate IsSpace(c: char) {
    c == '\t' || c == '\n' || c == '\U{B}' || c == '\U{C}' || c == '\r' ||
    c == ' ' || c == '\U{A0}' || c == '\U{1680}' ||
    ('\U{2000}' <= c <= '\U{200A}') ||
    c == '\U{2028}' || c == '\U{2029}' || c == '\U{202F}' || c == '\U{205F}' ||
    c == '\U{3000}' || c == '\U{FEFF}'
  }

  predicate IsDigit(c: char) {
    '0' <= c <= '9'
  }

  function LowerChar(c: char): char {
    if 'A' <= c <= 'Z' then (c as int + 32) as char else c
  }

  /** `toLowerCase`, on the ASCII letters. */
  function Lower(s: string): (r: string)
    ensures |r| == |s|
  {
    seq(|s|, i requires 0 <= i < |s| => LowerChar(s[i]))
  }

  // ---------------------------------------------------------------------
  // Searching

  predicate StartsWith(s: string, prefix: string) {
    |prefix| <= |s| && s[..|prefix|] == prefix
  }

  predicate EndsWith(s: string, suffix: string) {
    |suffix| <= |s| && s[|s| - |suffix|..] == suffix
  }

  /** `s.includes(sub)`: `sub` occurs in `s` at some position. */
  predicate Contains(s: string, sub: string) {
    exists i | 0 <= i <= |s| - |sub| :: OccursAt(s, sub, i)
  }

  predicate OccursAt(s: string, sub: string, i: nat) {
    i + |sub| <= |s| && s[i..i + |sub|] == sub
  }

  lemma ContainsEmpty(s: string)
    ensures Contains(s, "")
  {
    assert OccursAt(s, "", 0);
  }

  /** `s.indexOf(c)`: the first position of `c`, or -1. */
  function IndexOf(s: string, c: char): (r: int)
    ensures -1 <= r < |s|
    ensures r == -1 <==> c !in s
    ensures r >= 0 ==> s[r] == c && c !in s[..r]
  {
    if |s| == 0 then -1
    else if s[0] == c then 0
    else
      var k := IndexOf(s[1..], c);
      assert s[1..][..if k < 0 then 0 else k] == s[1..if k < 0 then 1 else k + 1];
      if k < 0 then -1 else k + 1
  }

  lemma IndexOfAfter(a: string, c: char, b: string)
    requires c !in a
    ensures IndexOf(a + [c] + b, c) == |a|
  {
    var s := a + [c] + b;
    assert s[|a|] == c;
    assert s[..|a|] == a;
  }

  // ---------------------------------------------------------------------
  // Trimming

  function TrimStart(s: string): (r: string)
    ensures |r| <= |s| && r == s[|s| - |r|..]
    ensures |r| > 0 ==> !IsSpace(r[0])
  {
    if |s| > 0 && IsSpace(s[0]) then TrimStart(s[1..]) else s
  }

  function TrimEnd(s: string): (r: string)
    ensures |r| <= |s| && r == s[..|r|]
    ensures |r| > 0 ==> !IsSpace(r[|r| - 1])
  {
    if |s| > 0 && IsSpace(s[|s| - 1]) then TrimEnd(s[..|s| - 1]) else s
  }

  /** `s.trim()`. */
  function Trim(s: string): string {
    TrimEnd(TrimStart(s))
  }

  /** A string that `trim` leaves as it is. */
  predicate Trimmed(s: string) {
    |s| == 0 || (!IsSpace(s[0]) && !IsSpace(s[|s| - 1]))
  }

  lemma {:induction false} TrimOfTrimmed(s: string)
    requires Trimmed(s)
    ensures Trim(s) == s
  {
  }

  /** Trimming removes one leading blank in front of an already trimmed
      string: `" " + f` trims to `f`. */
  lemma {:induction false} TrimAfterBlank(f: string)
    requires Trimmed(f)
    ensures Trim(" " + f) == f
  {
    assert (" " + f)[1..] == f;
    TrimOfTrimmed(f);
  }

  /** `trim`'s result is already trimmed. */
  lemma TrimIsTrimmed(s: string)
    ensures Trimmed(Trim(s))
  {
    var t := TrimStart(s);
    var r := TrimEnd(t);
    if |r| > 0 {
      assert r[0] == t[0];
    }
  }

  /** `trim` only removes characters: one absent before is absent after. */
  lemma TrimAvoids(s: string, c: char)
    requires c !in s
    ensures c !in Trim(s)
  {
    var t := TrimStart(s);
    var r := TrimEnd(t);
    assert forall i :: 0 <= i < |t| ==> t[i] == s[|s| - |t| + i];
    assert forall i :: 0 <= i < |r| ==> r[i] == t[i];
  }

  /** `trim` yields the empty string exactly when every character is blank. */
  lemma {:induction false} TrimEmptyIffBlank(s: string)
    ensures Trim(s) == "" <==> forall i :: 0 <= i < |s| ==> IsSpace(s[i])
    decreases |s|
  {
    if |s| > 0 && IsSpace(s[0]) {
      TrimEmptyIffBlank(s[1..]);
      assert forall i :: 1 <= i < |s| ==> s[i] == s[1..][i - 1];
    } else if |s| > 0 {
      TrimEndNonBlank(s);
    }
  }

  /** A string that starts with a non-blank character does not trim to "". */
  lemma TrimNonBlank(s: string)
    requires |s| > 0 && !IsSpace(s[0])
    ensures Trim(s) != ""
  {
    assert TrimStart(s) == s;
    TrimEndNonBlank(s);
  }

  lemma {:induction false} TrimEndNonBlank(s: string)
    requires |s| > 0 && !IsSpace(s[0])
    ensures TrimEnd(s) != ""
    decreases |s|
  {
    if IsSpace(s[|s| - 1]) {
      TrimEndNonBlank(s[..|s| - 1]);
    }
  }

  // ---------------------------------------------------------------------
  // Splitting and joining

  /** `s.split(c)` for a one-character separator. */
  function Split(s: string, c: char): (parts: seq<string>)
    ensures |parts| >= 1
    ensures forall i :: 0 <= i < |parts| ==> c !in parts[i]
    decreases |s|
  {
    var k := IndexOf(s, c);
    if k < 0 then [s] else [s[..k]] + Split(s[k + 1..], c)
  }

  /** `parts.join(sep)`. */
  function Join(parts: seq<string>, sep: string): string {
    if |parts| == 0 then ""
    else if |parts| == 1 then parts[0]
    else parts[0] + sep + Join(parts[1..], sep)
  }

  /** A character absent from every part and from the separator is absent
      from the joined text. */
  lemma {:induction false} JoinAvoids(parts: seq<string>, sep: string, c: char)
    requires c !in sep
    requires forall i :: 0 <= i < |parts| ==> c !in parts[i]
    ensures c !in Join(parts, sep)
  {
    if |parts| > 1 {
      JoinAvoids(parts[1..], sep, c);
    }
  }

  /** Each element of `xs`, with `pad` in front. */
  function Prefixed(xs: seq<string>, pad: string): (r: seq<string>)
    ensures |r| == |xs|
    ensures forall i :: 0 <= i < |xs| ==> r[i] == pad + xs[i]
  {
    seq(|xs|, i requires 0 <= i < |xs| => pad + xs[i])
  }

  lemma {:induction false} JoinPadFirst(y: string, rest: seq<string>, pad: string, sep: string)
    ensures Join([pad + y] + rest, sep) == pad + Join([y] + rest, sep)
  {
    if |rest| > 0 {
      assert ([pad + y] + rest)[1..] == rest;
      assert ([y] + rest)[1..] == rest;
    }
  }

  /** Splitting a joined list on the first character of the separator gives
      the list back, each element after the first still carrying the rest of
      the separator in front. */
  lemma {:induction false} SplitJoin(xs: seq<string>, c: char, pad: string)
    requires |xs| >= 1
    requires c !in pad
    requires forall i :: 0 <= i < |xs| ==> c !in xs[i]
    ensures Split(Join(xs, [c] + pad), c) == [xs[0]] + Prefixed(xs[1..], pad)
    decreases |xs|
  {
    var sep := [c] + pad;
    if |xs| == 1 {
      assert Join(xs, sep) == xs[0];
    } else {
      var tail := Join(xs[1..], sep);
      var s := Join(xs, sep);
      assert s == xs[0] + [c] + (pad + tail);
      IndexOfAfter(xs[0], c, pad + tail);
      assert s[..|xs[0]|] == xs[0];
      assert s[|xs[0]| + 1..] == pad + tail;
      var ys := [pad + xs[1]] + xs[2..];
      assert xs[1..] == [xs[1]] + xs[2..];
      JoinPadFirst(xs[1], xs[2..], pad, sep);
      assert pad + tail == Join(ys, sep);
      assert c !in pad + xs[1];
      SplitJoin(ys, c, pad);
      assert Prefixed(ys[1..], pad) == Prefixed(xs[2..], pad);
      assert [ys[0]] + Prefixed(ys[1..], pad) == Prefixed(xs[1..], pad);
    }
  }

  /** With a one-character separator, `split` undoes `join`. */
  lemma {:induction false} SplitJoinPlain(xs: seq<string>, c: char)
    requires |xs| >= 1
    requires forall i :: 0 <= i < |xs| ==> c !in xs[i]
    ensures Split(Join(xs, [c]), c) == xs
  {
    SplitJoin(xs, c, "");
    assert [c] + "" == [c];
    var r := [xs[0]] + Prefixed(xs[1..], "");
    assert forall i :: 0 <= i < |xs| ==> r[i] == xs[i];
    assert r == xs;
  }

  // ---------------------------------------------------------------------
  // Filtering

  /** `xs.filter(p)`. */
  function FilterSeq<T>(xs: seq<T>, p: T -> bool): (r: seq<T>)
    ensures |r| <= |xs|
    ensures forall i :: 0 <= i < |r| ==> r[i] in xs && p(r[i])
    ensures forall i :: 0 <= i < |xs| && p(xs[i]) ==> xs[i] in r
  {
    if |xs| == 0 then []
    else if p(xs[0]) then [xs[0]] + FilterSeq(xs[1..], p)
    else FilterSeq(xs[1..], p)
  }

  /** Filtering keeps the order of the input: it distributes over
      concatenation. */
  lemma {:induction false} FilterConcat<T>(xs: seq<T>, ys: seq<T>, p: T -> bool)
    ensures FilterSeq(xs + ys, p) == FilterSeq(xs, p) + FilterSeq(ys, p)
    decreases |xs|
  {
    if |xs| > 0 {
      assert (xs + ys)[1..] == xs[1..] + ys;
      FilterConcat(xs[1..], ys, p);
    } else {
      assert xs + ys == ys;
    }
  }

  /** A filter that accepts everything returns the input. */
  lemma {:induction false} FilterAll<T>(xs: seq<T>, p: T -> bool)
    requires forall i :: 0 <= i < |xs| ==> p(xs[i])
    ensures FilterSeq(xs, p) == xs
    decreases |xs|
  {
    if |xs| > 0 {
      FilterAll(xs[1..], p);
    }
  }

  /** `a` is `b` with some elements left out, the rest in the same order. */
  predicate IsSubseq<T(==)>(a: seq<T>, b: seq<T>)
    decreases |b|
  {
    if |a| == 0 then true
    else if |b| == 0 then false
    else if a[0] == b[0] then IsSubseq(a[1..], b[1..])
    else IsSubseq(a, b[1..])
  }

  /** The filtered list is a subsequence of the input. */
  lemma {:induction false} FilterSubseq<T>(xs: seq<T>, p: T -> bool)
    ensures IsSubseq(FilterSeq(xs, p), xs)
    decreases |xs|
  {
    if |xs| > 0 {
      FilterSubseq(xs[1..], p);
      if !p(xs[0]) {
        SubseqCons(FilterSeq(xs[1..], p), xs[0], xs[1..]);
      }
    }
  }

  /** A subsequence of `b` is also one of `[x] + b`. */
  lemma {:induction false} SubseqCons<T>(a: seq<T>, x: T, b: seq<T>)
    requires IsSubseq(a, b)
    ensures IsSubseq(a, [x] + b)
    decreases |b|, 1
  {
    if |a| > 0 && a[0] == x {
      assert ([x] + b)[1..] == b;
      SubseqDrop(a, b);
    } else if |a| > 0 {
      assert ([x] + b)[1..] == b;
    }
  }

  /** Dropping the first element of a subsequence keeps it one. */
  lemma {:induction false} SubseqDrop<T>(a: seq<T>, b: seq<T>)
    requires |a| > 0 && IsSubseq(a, b)
    ensures IsSubseq(a[1..], b)
    decreases |b|, 0
  {
    if |b| > 0 {
      if a[0] == b[0] {
        SubseqCons(a[1..], b[0], b[1..]);
        assert [b[0]] + b[1..] == b;
      } else {
        SubseqDrop(a, b[1..]);
        SubseqCons(a[1..], b[0], b[1..]);
        assert [b[0]] + b[1..] == b;
      }
    }
  }

  /** The number of elements satisfying `p` (`xs.filter(p).length`). */
  function CountIf<T>(xs: seq<T>, p: T -> bool): (n: nat)
    ensures n <= |xs|
  {
    if |xs| == 0 then 0 else (if p(xs[0]) then 1 else 0) + CountIf(xs[1..], p)
  }

  /** Three conditions no element meets two of at once count at most the
      whole list. */
  lemma {:induction false} CountExclusive<T>(xs: seq<T>, p: T -> bool, q: T -> bool, r: T -> bool)
    requires forall i :: 0 <= i < |xs| ==> !(p(xs[i]) && q(xs[i])) && !(p(xs[i]) && r(xs[i])) && !(q(xs[i]) && r(xs[i]))
    ensures CountIf(xs, p) + CountIf(xs, q) + CountIf(xs, r) <= |xs|
    decreases |xs|
  {
    if |xs| > 0 {
      CountExclusive(xs[1..], p, q, r);
    }
  }

  /** The count is the length of the filtered list. */
  lemma {:induction false} CountIsFilterLength<T>(xs: seq<T>, p: T -> bool)
    ensures CountIf(xs, p) == |FilterSeq(xs, p)|
    decreases |xs|
  {
    if |xs| > 0 {
      CountIsFilterLength(xs[1..], p);
    }
  }

  // ---------------------------------------------------------------------
  // Numbers as text

  function Digit(d: nat): char
    requires d < 10
  {
    ('0' as int + d) as char
  }

  /** The decimal text of a natural number, as `String(n)` prints it. */
  function NatToString(n: nat): (s: string)
    ensures |s| >= 1
    ensures forall i :: 0 <= i < |s| ==> IsDigit(s[i])
  {
    if n < 10 then [Digit(n)] else NatToString(n / 10) + [Digit(n % 10)]
  }

  /** The decimal text of an integer, with a leading '-' when negative. */
  function IntToString(x: int): (s: string)
    ensures forall i :: 0 <= i < |s| ==> IsDigit(s[i]) || s[i] == '-'
  {
    if x < 0 then "-" + NatToString(-x) else NatToString(x)
  }

  /** The value of a string of decimal digits. */
  function DigitsValue(d: string): nat
    requires forall i :: 0 <= i < |d| ==> IsDigit(d[i])
  {
    if |d| == 0 then 0
    else DigitsValue(d[..|d| - 1]) * 10 + DigitValue(d[|d| - 1])
  }

  function DigitValue(c: char): nat
    requires IsDigit(c)
  {
    c as int - '0' as int
  }

  /** The longest prefix made of decimal digits. */
  function LeadingDigits(s: string): (d: string)
    ensures StartsWith(s, d)
    ensures forall i :: 0 <= i < |d| ==> IsDigit(d[i])
    ensures |d| < |s| ==> !IsDigit(s[|d|])
  {
    if |s| > 0 && IsDigit(s[0]) then
      var rest := LeadingDigits(s[1..]);
      assert s[..1 + |rest|] == [s[0]] + s[1..][..|rest|];
      [s[0]] + rest
    else ""
  }

  predicate HasSign(t: string) {
    |t| > 0 && (t[0] == '-' || t[0] == '+')
  }

  /** `parseInt(s)` in base 10: leading blanks, an optional sign, then the
      longest run of digits; None stands for NaN. */
  function ParseInt(s: string): Option<int> {
    var t := TrimStart(s);
    var d := LeadingDigits(if HasSign(t) then t[1..] else t);
    if d == "" then None
    else if HasSign(t) && t[0] == '-' then Some(-(DigitsValue(d) as int))
    else Some(DigitsValue(d) as int)
  }

  lemma {:induction false} DigitsOfNat(n: nat)
    ensures DigitsValue(NatToString(n)) == n
  {
    var s := NatToString(n);
    if n >= 10 {
      DigitsOfNat(n / 10);
      assert s[..|s| - 1] == NatToString(n / 10);
    }
  }

  lemma {:induction false} LeadingDigitsAll(s: string)
    requires forall i :: 0 <= i < |s| ==> IsDigit(s[i])
    ensures LeadingDigits(s) == s
    decreases |s|
  {
    if |s| > 0 {
      LeadingDigitsAll(s[1..]);
    }
  }

  lemma TrimStartOfDigit(s: string)
    requires |s| > 0 && IsDigit(s[0])
    ensures TrimStart(s) == s
  {
  }

  lemma ParseIntOfDigits(s: string)
    requires |s| > 0 && forall i :: 0 <= i < |s| ==> IsDigit(s[i])
    ensures ParseInt(s) == Some(DigitsValue(s) as int)
  {
    TrimStartOfDigit(s);
    LeadingDigitsAll(s);
    var t := TrimStart(s);
    assert !HasSign(t) by {
      assert t == s && IsDigit(s[0]);
    }
    assert LeadingDigits(t) == s;
  }

  /** `parseInt` reads back the text `String(n)` prints for a natural number. */
  lemma ParseIntOfNat(n: nat)
    ensures ParseInt(NatToString(n)) == Some(n)
  {
    ParseIntOfDigits(NatToString(n));
    DigitsOfNat(n);
  }
}
