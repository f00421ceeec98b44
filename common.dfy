/** Values and list/string operations shared by the pages and services:
    optional values, JavaScript's `Array.prototype.filter` and `reduce`-sums,
    `String.prototype.trim`, `toUpperCase`, `includes`, `Math.ceil` of a
    division, and decimal rendering of numbers. */
module Common {

  /** A value that may be absent (`undefined`/`null` in the source). */
  datatype Option<+T> = None | Some(value: T) {
    predicate IsFailure() {
      None?
    }

    function PropagateFailure<U>(): Option<U>
      requires None?
    {
      None
    }

    function Extract(): T
      requires Some?
    {
      value
    }

    function GetOr(default: T): T {
      match this
      case Some(v) => v
      case None => default
    }
  }

  /** The outcome of a call that may throw: a value or the thrown message. */
  datatype Result<+T> = Ok(value: T) | Err(message: string)

  /** JavaScript truthiness of a string: only the empty string is falsy. */
  predicate Truthy(s: string) {
    s != ""
  }

  /** `a || b` on strings. */
  function OrElse(a: string, b: string): (r: string)
    ensures Truthy(a) ==> r == a
    ensures !Truthy(a) ==> r == b
  {
    if a != "" then a else b
  }

  /** `a || b` where `a` may be missing and `b` is the fallback. */
  function OptOrElse(a: Option<string>, b: string): (r: string)
    ensures a.Some? && Truthy(a.value) ==> r == a.value
    ensures !(a.Some? && Truthy(a.value)) ==> r == b
  {
    match a
    case Some(s) => OrElse(s, b)
    case None => b
  }

  /** `n || 0` on a number that may be missing. */
  function NumOrZero(n: Option<int>): int {
    n.GetOr(0)
  }

  // ---------------------------------------------------------------------
  // Lists

  /** `s.filter(p)`: the elements satisfying `p`, in their original order. */
  function Filter<T>(s: seq<T>, p: T -> bool): (r: seq<T>)
    ensures |r| <= |s|
  {
    if s == [] then []
    else (if p(s[0]) then [s[0]] else []) + Filter(s[1..], p)
  }

  /** An element is kept exactly when it is in the list and passes the test. */
  lemma {:induction false} FilterMembers<T>(s: seq<T>, p: T -> bool)
    ensures forall x :: x in Filter(s, p) <==> x in s && p(x)
  {
    if s != [] {
      FilterMembers(s[1..], p);
      assert s == [s[0]] + s[1..];
    }
  }

  /** `a` is obtained from `b` by deleting some elements (order is kept). */
  predicate IsSubsequence<T(==)>(a: seq<T>, b: seq<T>)
    decreases |b|
  {
    a == [] ||
    (b != [] && ((a[0] == b[0] && IsSubsequence(a[1..], b[1..])) || IsSubsequence(a, b[1..])))
  }

  lemma {:induction false} FilterIsSubsequence<T>(s: seq<T>, p: T -> bool)
    ensures IsSubsequence(Filter(s, p), s)
  {
    if s != [] {
      FilterIsSubsequence(s[1..], p);
      if p(s[0]) {
        assert Filter(s, p) == [s[0]] + Filter(s[1..], p);
        assert Filter(s, p)[1..] == Filter(s[1..], p);
      } else {
        assert Filter(s, p) == Filter(s[1..], p);
      }
    }
  }

  /** Filtering by `p` and by its complement splits the list: every element
      goes to exactly one side, as many times as it occurs. */
  lemma {:induction false} FilterSplit<T>(s: seq<T>, p: T -> bool, q: T -> bool)
    requires forall x :: q(x) == !p(x)
    ensures multiset(Filter(s, p)) + multiset(Filter(s, q)) == multiset(s)
    ensures |Filter(s, p)| + |Filter(s, q)| == |s|
  {
    if s != [] {
      FilterSplit(s[1..], p, q);
      assert s == [s[0]] + s[1..];
    }
  }

  /** Filtering with a predicate that holds everywhere changes nothing. */
  lemma {:induction false} FilterAll<T>(s: seq<T>, p: T -> bool)
    requires forall x :: x in s ==> p(x)
    ensures Filter(s, p) == s
  {
    if s != [] {
      FilterAll(s[1..], p);
      assert s == [s[0]] + s[1..];
    }
  }

  /** `s.reduce((sum, x) => sum + f(x), 0)`. */
  function Sum<T>(s: seq<T>, f: T -> int): int {
    if s == [] then 0 else f(s[0]) + Sum(s[1..], f)
  }

  lemma {:induction false} SumNonNegative<T>(s: seq<T>, f: T -> int)
    requires forall x :: x in s ==> f(x) >= 0
    ensures Sum(s, f) >= 0
  {
    if s != [] {
      SumNonNegative(s[1..], f);
    }
  }

  /** No element occurs twice. */
  predicate NoDuplicates<T(==)>(s: seq<T>) {
    forall i, j :: 0 <= i < j < |s| ==> s[i] != s[j]
  }

  /** Filtering a concatenation filters each part. */
  lemma {:induction false} FilterConcat<T>(a: seq<T>, b: seq<T>, p: T -> bool)
    ensures Filter(a + b, p) == Filter(a, p) + Filter(b, p)
  {
    if a != [] {
      assert (a + b)[1..] == a[1..] + b;
      FilterConcat(a[1..], b, p);
    } else {
      assert a + b == b;
    }
  }

  /** Filtering never introduces a duplicate. */
  lemma {:induction false} FilterNoDuplicates<T>(s: seq<T>, p: T -> bool)
    requires NoDuplicates(s)
    ensures NoDuplicates(Filter(s, p))
  {
    if s != [] {
      FilterNoDuplicates(s[1..], p);
      var rest := Filter(s[1..], p);
      FilterMembers(s[1..], p);
      if p(s[0]) {
        NoDuplicatesCons(s[0], rest);
      }
    }
  }

  lemma NoDuplicatesCons<T>(x: T, t: seq<T>)
    requires NoDuplicates(t) && x !in t
    ensures NoDuplicates([x] + t)
  {
    var s := [x] + t;
    forall i, j | 0 <= i < j < |s|
      ensures s[i] != s[j]
    {
      assert s[j] == t[j - 1];
      if i > 0 {
        assert s[i] == t[i - 1];
      }
    }
  }

  /** Appending an absent element keeps a list duplicate-free. */
  lemma NoDuplicatesAppend<T>(s: seq<T>, x: T)
    requires NoDuplicates(s) && x !in s
    ensures NoDuplicates(s + [x])
  {
    var r := s + [x];
    forall i, j | 0 <= i < j < |r|
      ensures r[i] != r[j]
    {
      assert r[i] == s[i];
      if j < |s| {
        assert r[j] == s[j];
      }
    }
  }

  // ---------------------------------------------------------------------
  // Numbers

  /** Milliseconds in a day: `1000 * 3600 * 24`. */
  const MsPerDay: int := 86400000

  /** `Math.ceil(a / b)` for a positive divisor: the least `q` with `q * b >= a`. */
  function CeilDiv(a: int, b: int): (q: int)
    requires b > 0
    ensures (q - 1) * b < a <= q * b
  {
    var f := a / b;
    assert f * b + a % b == a;
    assert (f + 1) * b == f * b + b;
    assert (f - 1) * b == f * b - b;
    if a % b == 0 then f else f + 1
  }

  /** The ceiling is unique: any `q` bracketing `a` this way is `CeilDiv(a, b)`. */
  lemma CeilDivUnique(a: int, b: int, q: int)
    requires b > 0
    requires (q - 1) * b < a <= q * b
    ensures q == CeilDiv(a, b)
  {
    var c := CeilDiv(a, b);
    if q < c {
      assert q * b <= (c - 1) * b by { MulMonotone(q, c - 1, b); }
      assert false;
    } else if q > c {
      assert c * b <= (q - 1) * b by { MulMonotone(c, q - 1, b); }
      assert false;
    }
  }

  lemma MulMonotone(x: int, y: int, b: int)
    requires x <= y && b > 0
    ensures x * b <= y * b
  {
    assert y * b - x * b == (y - x) * b;
  }

  /** Decimal digits of a natural number, as `String(n)` writes it. */
  function NatToString(n: nat): (r: string)
    ensures |r| >= 1
    ensures forall i :: 0 <= i < |r| ==> '0' <= r[i] <= '9'
    decreases n
  {
    if n < 10 then [DigitChar(n)] else NatToString(n / 10) + [DigitChar(n % 10)]
  }

  function DigitChar(d: nat): (c: char)
    requires d < 10
    ensures '0' <= c <= '9' && c as int - '0' as int == d
  {
    (('0' as int) + d) as char
  }

  // ---------------------------------------------------------------------
  // Strings

  /** The characters `String.prototype.trim` removes: ECMAScript WhiteSpace
      (tab, vertical tab, form feed, no-break space, the byte-order mark and
      the Unicode space separators) and LineTerminator (LF, CR, U+2028, U+2029). */
  predicate IsJsSpace(c: char) {
    var n := c as int;
    n == 0x09 || n == 0x0A || n == 0x0B || n == 0x0C || n == 0x0D || n == 0x20 ||
    n == 0xA0 || n == 0x1680 || (0x2000 <= n <= 0x200A) || n == 0x2028 || n == 0x2029 ||
    n == 0x202F || n == 0x205F || n == 0x3000 || n == 0xFEFF
  }

  predicate AllSpace(s: string) {
    forall i :: 0 <= i < |s| ==> IsJsSpace(s[i])
  }

  /** `s.trimStart()`: the suffix left after dropping leading white space. */
  function TrimStart(s: string): (r: string)
    ensures |r| <= |s| && r == s[|s| - |r|..]
    ensures forall i :: 0 <= i < |s| - |r| ==> IsJsSpace(s[i])
    ensures r == [] || !IsJsSpace(r[0])
  {
    if s != [] && IsJsSpace(s[0]) then TrimStart(s[1..]) else s
  }

  /** `s.trimEnd()`: the prefix left after dropping trailing white space. */
  function TrimEnd(s: string): (r: string)
    ensures |r| <= |s| && r == s[..|r|]
    ensures forall i :: |r| <= i < |s| ==> IsJsSpace(s[i])
    ensures r == [] || !IsJsSpace(r[|r| - 1])
  {
    if s != [] && IsJsSpace(s[|s| - 1]) then TrimEnd(s[..|s| - 1]) else s
  }

  /** Trimming both ends leaves nothing exactly when the text is all white space. */
  lemma TrimEmptyIffAllSpace(s: string)
    ensures TrimEnd(TrimStart(s)) == [] <==> AllSpace(s)
  {
    var t := TrimStart(s);
    assert t != [] ==> t[0] == s[|s| - |t|];
    assert t != [] ==> TrimEnd(t) == [] || TrimEnd(t)[0] == t[0];
  }

  /** Neither end of the trimmed text is white space. */
  lemma TrimEndsNotSpace(s: string)
    ensures var r := TrimEnd(TrimStart(s));
            r != [] ==> !IsJsSpace(r[0]) && !IsJsSpace(r[|r| - 1])
  {
    var t := TrimStart(s);
    var r := TrimEnd(t);
    if r != [] {
      assert r[0] == t[0];
    }
  }

  /** The trimmed text is a slice of the original. */
  lemma TrimIsSlice(s: string)
    ensures Contains(s, TrimEnd(TrimStart(s)))
  {
    var t := TrimStart(s);
    var r := TrimEnd(t);
    var i := |s| - |t|;
    assert r == s[i..i + |r|];
    ContainsAt(s, r, i);
  }

  /** `r` sits at index `i` of `s` with only white space before and after it. */
  predicate SpaceAround(s: string, r: string, i: int) {
    0 <= i <= |s| - |r| && r == s[i..i + |r|] && AllSpace(s[..i]) && AllSpace(s[i + |r|..])
  }

  /** What `trimStart` drops is white space. */
  lemma TrimStartDropsSpace(s: string)
    ensures AllSpace(s[..|s| - |TrimStart(s)|])
  {
    var before := s[..|s| - |TrimStart(s)|];
    forall k | 0 <= k < |before| ensures IsJsSpace(before[k]) {
      assert before[k] == s[k];
    }
  }

  /** What `trimEnd` drops is white space. */
  lemma TrimEndDropsSpace(t: string)
    ensures AllSpace(t[|TrimEnd(t)|..])
  {
    var after := t[|TrimEnd(t)|..];
    forall k | 0 <= k < |after| ensures IsJsSpace(after[k]) {
      assert after[k] == t[|TrimEnd(t)| + k];
    }
  }

  /** A middle part with white space on both sides of it. */
  lemma SpaceAroundSuffixPrefix(s: string, t: string, r: string)
    requires |t| <= |s| && t == s[|s| - |t|..] && |r| <= |t| && r == t[..|r|]
    requires AllSpace(s[..|s| - |t|]) && AllSpace(t[|r|..])
    ensures SpaceAround(s, r, |s| - |t|)
  {
    var i := |s| - |t|;
    assert s[i + |r|..] == t[|r|..];
  }

  /** Trimming drops only the leading and the trailing white space. */
  lemma TrimDropsOnlyEnds(s: string)
    ensures SpaceAround(s, TrimEnd(TrimStart(s)), |s| - |TrimStart(s)|)
  {
    var t := TrimStart(s);
    var r := TrimEnd(t);
    TrimStartDropsSpace(s);
    TrimEndDropsSpace(t);
    SpaceAroundSuffixPrefix(s, t, r);
  }

  /** `s.trim()`. */
  function Trim(s: string): (r: string)
    ensures |r| <= |s|
    ensures r == [] <==> AllSpace(s)
    ensures r != [] ==> !IsJsSpace(r[0]) && !IsJsSpace(r[|r| - 1])
    ensures Contains(s, r)
    ensures exists i :: SpaceAround(s, r, i)
  {
    TrimEmptyIffAllSpace(s);
    TrimDropsOnlyEnds(s);
    TrimEndsNotSpace(s);
    TrimIsSlice(s);
    TrimEnd(TrimStart(s))
  }

  /** Trimming an already trimmed string changes nothing. */
  lemma TrimIdempotent(s: string)
    ensures Trim(Trim(s)) == Trim(s)
  {
    var t := Trim(s);
    assert TrimStart(t) == t;
    assert TrimEnd(t) == t;
  }

  /** `toUpperCase` on one character (ASCII letters only). */
  function UpperChar(c: char): (u: char)
    ensures !('a' <= u <= 'z')
    ensures 'A' <= c <= 'Z' || !('a' <= c <= 'z') ==> u == c
  {
    if 'a' <= c <= 'z' then (c as int - 32) as char else c
  }

  /** `s.toUpperCase()` (ASCII letters only). */
  function ToUpper(s: string): (r: string)
    ensures |r| == |s|
    ensures forall i :: 0 <= i < |s| ==> r[i] == UpperChar(s[i])
  {
    if s == [] then [] else [UpperChar(s[0])] + ToUpper(s[1..])
  }

  predicate NoLowerCase(s: string) {
    forall i :: 0 <= i < |s| ==> !('a' <= s[i] <= 'z')
  }

  /** Every character lies in the Basic Multilingual Plane, where one
      character is one UTF-16 code unit. */
  predicate InBmp(s: string) {
    forall i :: 0 <= i < |s| ==> s[i] as int < 0x1_0000
  }

  /** `s.length`: JavaScript counts UTF-16 code units, so a character
      outside the Basic Multilingual Plane (a surrogate pair) counts twice. */
  function Utf16Length(s: string): (n: nat)
    ensures |s| <= n <= 2 * |s|
    ensures n == |s| <==> InBmp(s)
  {
    if s == [] then 0
    else
      var rest := Utf16Length(s[1..]);
      assert InBmp(s) <==> s[0] as int < 0x1_0000 && InBmp(s[1..]) by {
        if s[0] as int < 0x1_0000 && InBmp(s[1..]) {
          forall i | 0 <= i < |s| ensures s[i] as int < 0x1_0000 {
            if i > 0 { assert s[i] == s[1..][i - 1]; }
          }
        }
      }
      (if s[0] as int < 0x1_0000 then 1 else 2) + rest
  }

  /** `s.includes(sub)`: `sub` occurs somewhere in `s`. */
  predicate Contains(s: string, sub: string)
    decreases |s|
  {
    sub <= s || (s != [] && Contains(s[1..], sub))
  }

  lemma {:induction false} ContainsAt(s: string, sub: string, k: nat)
    requires k + |sub| <= |s| && s[k..k + |sub|] == sub
    ensures Contains(s, sub)
  {
    if k > 0 {
      assert s[1..][k - 1..k - 1 + |sub|] == sub;
      ContainsAt(s[1..], sub, k - 1);
    }
  }

  lemma {:induction false} ContainsWitness(s: string, sub: string) returns (k: nat)
    requires Contains(s, sub)
    ensures k + |sub| <= |s| && s[k..k + |sub|] == sub
    decreases |s|
  {
    if sub <= s {
      k := 0;
    } else {
      var j := ContainsWitness(s[1..], sub);
      k := j + 1;
      assert s[k..k + |sub|] == s[1..][j..j + |sub|];
    }
  }
}
