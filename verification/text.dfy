/** String and sequence primitives that the booking wizard's rules are written in:
    the character classes its regular expressions use (`\d`, `\s`), ASCII
    case folding, substring search (`String.prototype.includes`), decimal
    rendering of a number inside a template literal, `Array.prototype.filter`
    and `Array.prototype.join`. */
module Text {

  // ---------------------------------------------------------------------
  // Character classes
  // ---------------------------------------------------------------------

  /** `\d` without the `u` flag: the ASCII digits. */
  predicate IsDigit(c: char) {
    '0' <= c <= '9'
  }

  predicate AllDigits(s: string) {
    forall i :: 0 <= i < |s| ==> IsDigit(s[i])
  }

  /** `\s`: ECMAScript WhiteSpace (TAB, VT, FF, ZWNBSP and the Zs category)
      together with LineTerminator (LF, CR, LS, PS). */
  predicate IsWhitespace(c: char) {
    || c == '\t' || c == '\n' || c == '\U{000B}' || c == '\U{000C}' || c == '\r'
    || c == ' ' || c == '\U{00A0}' || c == '\U{1680}'
    || ('\U{2000}' <= c <= '\U{200A}')
    || c == '\U{2028}' || c == '\U{2029}' || c == '\U{202F}' || c == '\U{205F}'
    || c == '\U{3000}' || c == '\U{FEFF}'
  }

  lemma DigitIsNotWhitespace(c: char)
    requires IsDigit(c)
    ensures !IsWhitespace(c)
  {
  }

  // ---------------------------------------------------------------------
  // Filtering (`Array.prototype.filter`, and `replace(/class/g, '')`)
  // ---------------------------------------------------------------------

  /** The elements of `s` that satisfy `p`, in their original order. */
  function Filter<T>(s: seq<T>, p: T -> bool): (r: seq<T>)
    ensures |r| <= |s|
    ensures forall i :: 0 <= i < |r| ==> p(r[i])
  {
    if s == [] then [] else (if p(s[0]) then [s[0]] else []) + Filter(s[1..], p)
  }

  lemma {:induction false} FilterAppend<T>(a: seq<T>, b: seq<T>, p: T -> bool)
    ensures Filter(a + b, p) == Filter(a, p) + Filter(b, p)
  {
    if a != [] {
      assert (a + b)[1..] == a[1..] + b;
      FilterAppend(a[1..], b, p);
    } else {
      assert a + b == b;
    }
  }

  /** An element is kept exactly as often as it occurs, when it satisfies `p`,
      and not at all otherwise. */
  lemma {:induction false} FilterCount<T>(s: seq<T>, p: T -> bool, x: T)
    ensures multiset(Filter(s, p))[x] == if p(x) then multiset(s)[x] else 0
  {
    if s != [] {
      FilterCount(s[1..], p, x);
      assert s == [s[0]] + s[1..];
      assert multiset(s) == multiset([s[0]]) + multiset(s[1..]);
    }
  }

  lemma FilterMembership<T>(s: seq<T>, p: T -> bool, x: T)
    ensures x in Filter(s, p) <==> x in s && p(x)
  {
    FilterCount(s, p, x);
    assert x in Filter(s, p) <==> multiset(Filter(s, p))[x] > 0;
  }

  /** A filter that rejects nothing returns its input. */
  lemma {:induction false} FilterAll<T>(s: seq<T>, p: T -> bool)
    requires forall i :: 0 <= i < |s| ==> p(s[i])
    ensures Filter(s, p) == s
  {
    if s != [] {
      FilterAll(s[1..], p);
    }
  }

  /** Everything `Filter` promises, in one place for its callers. */
  lemma FilterFacts<T>(s: seq<T>, p: T -> bool)
    ensures IsSubsequence(Filter(s, p), s)
    ensures forall x :: x in Filter(s, p) <==> x in s && p(x)
    ensures forall x :: multiset(Filter(s, p))[x] == if p(x) then multiset(s)[x] else 0
    ensures (forall i :: 0 <= i < |s| ==> p(s[i])) ==> Filter(s, p) == s
  {
    FilterIsSubsequence(s, p);
    forall x ensures x in Filter(s, p) <==> x in s && p(x) {
      FilterMembership(s, p, x);
    }
    forall x ensures multiset(Filter(s, p))[x] == if p(x) then multiset(s)[x] else 0 {
      FilterCount(s, p, x);
    }
    if forall i :: 0 <= i < |s| ==> p(s[i]) {
      FilterAll(s, p);
    }
  }

  /** `sub` can be obtained from `s` by deleting elements: order is kept. */
  predicate IsSubsequence<T(==)>(sub: seq<T>, s: seq<T>)
    decreases |s|
  {
    if sub == [] then true
    else if s == [] then false
    else if sub[0] == s[0] then IsSubsequence(sub[1..], s[1..])
    else IsSubsequence(sub, s[1..])
  }

  lemma {:induction false} FilterIsSubsequence<T>(s: seq<T>, p: T -> bool)
    ensures IsSubsequence(Filter(s, p), s)
  {
    if s != [] {
      FilterIsSubsequence(s[1..], p);
      if p(s[0]) {
        assert Filter(s, p) == [s[0]] + Filter(s[1..], p);
        assert Filter(s, p)[1..] == Filter(s[1..], p);
      } else {
        assert Filter(s, p) == Filter(s[1..], p);
        SubsequenceDropHead(Filter(s[1..], p), s);
      }
    }
  }

  lemma SubsequenceDropHead<T>(sub: seq<T>, s: seq<T>)
    requires s != [] && IsSubsequence(sub, s[1..])
    ensures IsSubsequence(sub, s)
    decreases |s|, |sub|
  {
    if sub != [] && sub[0] == s[0] {
      SubsequenceTail(sub, s[1..]);
    }
  }

  lemma SubsequenceTail<T>(sub: seq<T>, s: seq<T>)
    requires sub != [] && IsSubsequence(sub, s)
    ensures IsSubsequence(sub[1..], s)
    decreases |s|, |sub|
  {
    if s != [] && sub[0] != s[0] {
      SubsequenceTail(sub, s[1..]);
      SubsequenceDropHead(sub[1..], s);
    } else if s != [] {
      SubsequenceDropHead(sub[1..], s);
    }
  }

  /** `Array.prototype.findIndex`: the least index whose element satisfies
      `p`, or -1 when there is none. */
  function FindIndex<T>(s: seq<T>, p: T -> bool): (r: int)
    ensures -1 <= r < |s|
    ensures r >= 0 ==> p(s[r])
    ensures forall j :: 0 <= j < |s| && (r == -1 || j < r) ==> !p(s[j])
  {
    if s == [] then -1
    else if p(s[0]) then 0
    else var k := FindIndex(s[1..], p); if k == -1 then -1 else k + 1
  }

  function NotWhitespace(c: char): bool { !IsWhitespace(c) }

  /** `replace(/\s/g, '')` and `replace(/\s+/g, '')`. */
  function RemoveWhitespace(s: string): (r: string)
    ensures forall i :: 0 <= i < |r| ==> !IsWhitespace(r[i])
  {
    Filter(s, NotWhitespace)
  }

  /** `replace(/\D/g, '')` and `replace(/[^0-9]/gi, '')`: keeps the ASCII digits. */
  function KeepDigits(s: string): (r: string)
    ensures AllDigits(r) && |r| <= |s|
  {
    Filter(s, IsDigit)
  }

  /** Deleting whitespace first does not change which digits remain. */
  lemma {:induction false} KeepDigitsAfterRemoveWhitespace(s: string)
    ensures KeepDigits(RemoveWhitespace(s)) == KeepDigits(s)
  {
    if s != [] {
      KeepDigitsAfterRemoveWhitespace(s[1..]);
      var h := if NotWhitespace(s[0]) then [s[0]] else [];
      assert RemoveWhitespace(s) == h + RemoveWhitespace(s[1..]);
      FilterAppend(h, RemoveWhitespace(s[1..]), IsDigit);
    }
  }

  /** A string made of digits has nothing to remove. */
  lemma DigitsKeepAll(s: string)
    requires AllDigits(s)
    ensures KeepDigits(s) == s && RemoveWhitespace(s) == s
  {
    FilterAll(s, IsDigit);
    forall i | 0 <= i < |s| ensures NotWhitespace(s[i]) {
      DigitIsNotWhitespace(s[i]);
    }
    FilterAll(s, NotWhitespace);
  }

  // ---------------------------------------------------------------------
  // Case folding and substring search
  // ---------------------------------------------------------------------

  function LowerChar(c: char): (r: char)
    ensures 'A' <= c <= 'Z' ==> 'a' <= r <= 'z'
    ensures !('A' <= c <= 'Z') ==> r == c
  {
    if 'A' <= c <= 'Z' then (c as int + 32) as char else c
  }

  /** `toLowerCase`, restricted to the ASCII letters. */
  function ToLower(s: string): (r: string)
    ensures |r| == |s|
    ensures forall i :: 0 <= i < |s| ==> r[i] == LowerChar(s[i])
  {
    seq(|s|, i requires 0 <= i < |s| => LowerChar(s[i]))
  }

  predicate OccursAt(s: string, t: string, i: nat) {
    i + |t| <= |s| && s[i..i + |t|] == t
  }

  /** `s.includes(t)`. */
  predicate Contains(s: string, t: string) {
    exists i: nat :: i <= |s| && OccursAt(s, t, i)
  }

  lemma EmptyContained(s: string)
    ensures Contains(s, "")
  {
    assert OccursAt(s, "", 0);
  }

  /** In a string whose only `c` is its first character, a pattern that
      starts with `c` can only occur as a prefix. */
  lemma ContainsAnchored(s: string, t: string, c: char)
    requires |t| > 0 && t[0] == c
    requires forall i :: 0 < i < |s| ==> s[i] != c
    ensures Contains(s, t) <==> |t| <= |s| && s[..|t|] == t
  {
    if Contains(s, t) {
      var i: nat :| i <= |s| && OccursAt(s, t, i);
      assert s[i] == s[i..i + |t|][0] == c;
    }
    if |t| <= |s| && s[..|t|] == t {
      assert OccursAt(s, t, 0);
    }
  }

  lemma ContainsItself(s: string)
    ensures Contains(s, s)
  {
    assert OccursAt(s, s, 0);
  }

  // ---------------------------------------------------------------------
  // Decimal rendering (`${n}` for a non-negative integer) and its inverse
  // ---------------------------------------------------------------------

  function DigitChar(d: nat): (c: char)
    requires d < 10
    ensures IsDigit(c)
  {
    ('0' as int + d) as char
  }

  function DigitValue(c: char): (d: nat)
    requires IsDigit(c)
    ensures d < 10
  {
    c as int - '0' as int
  }

  /** The shortest decimal numeral of `n`, as JavaScript prints it. */
  function Decimal(n: nat): (r: string)
    ensures |r| >= 1 && AllDigits(r)
  {
    if n < 10 then [DigitChar(n)] else Decimal(n / 10) + [DigitChar(n % 10)]
  }

  /** The number a string of decimal digits denotes. */
  function DecimalValue(s: string): nat
    requires AllDigits(s)
  {
    if s == [] then 0 else DecimalValue(s[..|s| - 1]) * 10 + DigitValue(s[|s| - 1])
  }

  lemma {:induction false} DecimalRoundTrip(n: nat)
    ensures DecimalValue(Decimal(n)) == n
  {
    if n >= 10 {
      DecimalRoundTrip(n / 10);
      var s := Decimal(n);
      assert s[..|s| - 1] == Decimal(n / 10);
    }
  }

  /** Different numbers print differently. */
  lemma DecimalInjective(m: nat, n: nat)
    requires Decimal(m) == Decimal(n)
    ensures m == n
  {
    DecimalRoundTrip(m);
    DecimalRoundTrip(n);
  }

  /** A fixed prefix followed by the decimal of `i` identifies `i`. */
  lemma PrefixedDecimalInjective(prefix: string, m: nat, n: nat)
    requires prefix + Decimal(m) == prefix + Decimal(n)
    ensures m == n
  {
    var a, b := prefix + Decimal(m), prefix + Decimal(n);
    assert Decimal(m) == a[|prefix|..];
    assert Decimal(n) == b[|prefix|..];
    DecimalInjective(m, n);
  }

  /** The decimal of `n` followed by one non-digit suffix identifies both. */
  lemma DecimalSuffixInjective(m: nat, a: string, n: nat, b: string)
    requires |a| == 1 && |b| == 1 && !IsDigit(a[0]) && !IsDigit(b[0])
    requires Decimal(m) + a == Decimal(n) + b
    ensures m == n && a == b
  {
    var s, t := Decimal(m) + a, Decimal(n) + b;
    assert s[|s| - 1] == a[0] && t[|t| - 1] == b[0];
    assert a == [a[0]] && b == [b[0]];
    assert Decimal(m) == s[..|s| - 1];
    assert Decimal(n) == t[..|t| - 1];
    DecimalInjective(m, n);
  }

  /** `String.fromCharCode(code)` for a code below the surrogate range. */
  function FromCharCode(code: nat): (r: string)
    requires code < 0xD800
    ensures |r| == 1 && r[0] as int == code
  {
    [code as char]
  }

  // ---------------------------------------------------------------------
  // Joining and slicing
  // ---------------------------------------------------------------------

  /** `parts.join(sep)`. */
  function Join(parts: seq<string>, sep: string): string {
    if parts == [] then ""
    else if |parts| == 1 then parts[0]
    else parts[0] + sep + Join(parts[1..], sep)
  }

  /** `s.slice(-k)` for a positive `k`: the last `k` characters, or all of a
      shorter string. */
  function SliceLast(s: string, k: nat): (r: string)
    requires k > 0
    ensures |r| == if |s| < k then |s| else k
    ensures s == s[..|s| - |r|] + r
  {
    if |s| < k then s else s[|s| - k..]
  }
}
