/**
 * Shared vocabulary of the handlers: optional values, handler responses, time,
 * and the JavaScript string operations they rely on (split, join, padStart,
 * case mapping, trim), plus the ordering and pagination helpers used by the
 * listing endpoints.
 */
module Common {

  datatype Option<T> = None | Some(value: T)

  /** The value, or the default for an absent one. */
  function Get<T>(o: Option<T>, default: T): T
  {
    if o.Some? then o.value else default
  }

  /** What a handler answers: a success payload, or an HTTP status with an error code. */
  datatype Response<T> = Ok(value: T) | Fail(status: nat, code: string)

  /** Milliseconds since the epoch. */
  type Time = int

  /** A calendar month, approximated by a fixed length of 30 days. */
  const MonthMs: int := 30 * 24 * 60 * 60 * 1000

  /** `d.setMonth(d.getMonth() + n)`, approximated by a fixed month length. */
  function AddMonths(t: Time, n: int): (r: Time)
    ensures n == 0 ==> r == t
    ensures n > 0 ==> r > t
    ensures n < 0 ==> r < t
  {
    t + n * MonthMs
  }

  lemma AddMonthsMonotone(t: Time, m: int, n: int)
    requires m <= n
    ensures AddMonths(t, m) <= AddMonths(t, n)
  {
    assert n * MonthMs - m * MonthMs == (n - m) * MonthMs;
  }

  /* ---------------------------------------------------------------------- */
  /* Characters                                                             */
  /* ---------------------------------------------------------------------- */

  predicate IsDigit(c: char) { '0' <= c <= '9' }
  predicate IsUpper(c: char) { 'A' <= c <= 'Z' }
  predicate IsLower(c: char) { 'a' <= c <= 'z' }

  function DigitValue(c: char): (d: nat)
    requires IsDigit(c)
    ensures d < 10
  {
    c as int - '0' as int
  }

  function DigitChar(d: nat): (c: char)
    requires d < 10
    ensures IsDigit(c) && DigitValue(c) == d
  {
    ('0' as int + d) as char
  }

  /** `toUpperCase` on one character (ASCII letters only). */
  function UpperChar(c: char): (u: char)
    ensures IsLower(c) ==> IsUpper(u)
    ensures !IsLower(c) ==> u == c
  {
    if IsLower(c) then (c as int - 32) as char else c
  }

  /** `toLowerCase` on one character (ASCII letters only). */
  function LowerChar(c: char): (l: char)
    ensures IsUpper(c) ==> IsLower(l)
    ensures !IsUpper(c) ==> l == c
  {
    if IsUpper(c) then (c as int + 32) as char else c
  }

  function Upper(s: string): (r: string)
    ensures |r| == |s|
    ensures forall i :: 0 <= i < |s| ==> r[i] == UpperChar(s[i])
  {
    seq(|s|, i requires 0 <= i < |s| => UpperChar(s[i]))
  }

  function Lower(s: string): (r: string)
    ensures |r| == |s|
    ensures forall i :: 0 <= i < |s| ==> r[i] == LowerChar(s[i])
  {
    seq(|s|, i requires 0 <= i < |s| => LowerChar(s[i]))
  }

  /** The white space `String.prototype.trim` removes (the ASCII part, NBSP and BOM). */
  predicate IsSpace(c: char)
  {
    c == ' ' || c == '\t' || c == '\n' || c == '\r' || c == '\U{B}' || c == '\U{C}'
    || c == '\U{A0}' || c == '\U{FEFF}'
  }

  function TrimStart(s: string): (r: string)
    ensures |r| <= |s|
    ensures r == s[|s| - |r|..]
    ensures r == [] || !IsSpace(r[0])
  {
    if |s| > 0 && IsSpace(s[0]) then TrimStart(s[1..]) else s
  }

  function TrimEnd(s: string): (r: string)
    ensures |r| <= |s|
    ensures r == s[..|r|]
    ensures r == [] || !IsSpace(r[|r| - 1])
  {
    if |s| > 0 && IsSpace(s[|s| - 1]) then TrimEnd(s[..|s| - 1]) else s
  }

  function Trim(s: string): string
  {
    TrimEnd(TrimStart(s))
  }

  /** A string is JavaScript-truthy iff it is not empty. */
  function OrNull(s: string): (r: Option<string>)
    ensures r.None? <==> s == ""
  {
    if s == "" then None else Some(s)
  }

  /** `s || fallback` for strings. */
  function OrElse(s: string, fallback: string): (r: string)
    ensures s != "" ==> r == s
    ensures s == "" ==> r == fallback
  {
    if s == "" then fallback else s
  }

  /** `s.includes(t)` (an unanchored regular expression on a literal word). */
  predicate Contains(s: string, t: string)
  {
    t <= s || (|s| > 0 && Contains(s[1..], t))
  }

  /* ---------------------------------------------------------------------- */
  /* Decimal numbers and padStart                                           */
  /* ---------------------------------------------------------------------- */

  predicate AllDigits(s: string)
  {
    forall i :: 0 <= i < |s| ==> IsDigit(s[i])
  }

  /** `String(n)` for a natural number. */
  function NatToString(n: nat): (s: string)
    ensures |s| >= 1 && AllDigits(s)
    ensures n >= 1 ==> s[0] != '0'
    decreases n
  {
    if n < 10 then [DigitChar(n)] else NatToString(n / 10) + [DigitChar(n % 10)]
  }

  /** The value of a string of decimal digits; leading zeros are allowed. */
  function ParseNat(s: string): nat
    requires AllDigits(s)
  {
    if s == [] then 0 else 10 * ParseNat(s[..|s| - 1]) + DigitValue(s[|s| - 1])
  }

  lemma {:induction false} ParseNatToString(n: nat)
    ensures ParseNat(NatToString(n)) == n
    decreases n
  {
    if n >= 10 {
      var s := NatToString(n);
      assert s[..|s| - 1] == NatToString(n / 10);
      ParseNatToString(n / 10);
    }
  }

  function Zeros(k: nat): (z: string)
    ensures |z| == k && AllDigits(z)
    ensures forall i :: 0 <= i < k ==> z[i] == '0'
  {
    seq(k, _ => '0')
  }

  /** `s.padStart(width, '0')`. */
  function PadStart(s: string, width: nat): (r: string)
    ensures |r| == if |s| >= width then |s| else width
    ensures r == Zeros(|r| - |s|) + s
  {
    if |s| >= width then s else Zeros(width - |s|) + s
  }

  lemma {:induction false} ParseNatIgnoresLeadingZeros(k: nat, s: string)
    requires AllDigits(s)
    ensures AllDigits(Zeros(k) + s) && ParseNat(Zeros(k) + s) == ParseNat(s)
    decreases |s|
  {
    var z := Zeros(k) + s;
    if s == [] {
      assert z == Zeros(k);
      ZerosParseToZero(k);
    } else {
      assert z[..|z| - 1] == Zeros(k) + s[..|s| - 1];
      ParseNatIgnoresLeadingZeros(k, s[..|s| - 1]);
    }
  }

  lemma {:induction false} ZerosParseToZero(k: nat)
    ensures ParseNat(Zeros(k)) == 0
  {
    if k > 0 {
      assert Zeros(k)[..k - 1] == Zeros(k - 1);
      ZerosParseToZero(k - 1);
    }
  }

  /** `String(n).padStart(width, '0')` reads back as n: the padded number is a faithful encoding. */
  lemma PaddedNumberRoundTrip(n: nat, width: nat)
    ensures AllDigits(PadStart(NatToString(n), width))
    ensures ParseNat(PadStart(NatToString(n), width)) == n
  {
    var s := NatToString(n);
    var r := PadStart(s, width);
    ParseNatIgnoresLeadingZeros(|r| - |s|, s);
    ParseNatToString(n);
  }

  /** Different numbers give different padded strings. */
  lemma PaddedNumberInjective(m: nat, n: nat, width: nat)
    requires PadStart(NatToString(m), width) == PadStart(NatToString(n), width)
    ensures m == n
  {
    PaddedNumberRoundTrip(m, width);
    PaddedNumberRoundTrip(n, width);
  }

  /* ---------------------------------------------------------------------- */
  /* split and join                                                         */
  /* ---------------------------------------------------------------------- */

  /** `s.split(sep)` for a one-character separator. */
  function Split(s: string, sep: char): (parts: seq<string>)
    ensures |parts| >= 1
    ensures forall i :: 0 <= i < |parts| ==> sep !in parts[i]
  {
    if |s| == 0 then [""]
    else
      var rest := Split(s[1..], sep);
      if s[0] == sep then [""] + rest else [[s[0]] + rest[0]] + rest[1..]
  }

  /** `parts.join(sep)`. */
  function Join(parts: seq<string>, sep: char): string
  {
    if |parts| == 0 then ""
    else if |parts| == 1 then parts[0]
    else parts[0] + [sep] + Join(parts[1..], sep)
  }

  /** A string without the separator splits into itself. */
  lemma {:induction false} SplitWithoutSeparator(s: string, sep: char)
    requires sep !in s
    ensures Split(s, sep) == [s]
  {
    if |s| > 0 {
      assert sep !in s[1..];
      SplitWithoutSeparator(s[1..], sep);
      assert [s[0]] + s[1..] == s;
    }
  }

  /** Splitting `a + sep + b`, where a has no separator, yields a and then the parts of b. */
  lemma {:induction false} SplitAtFirst(a: string, sep: char, b: string)
    requires sep !in a
    ensures Split(a + [sep] + b, sep) == [a] + Split(b, sep)
    decreases |a|
  {
    var s := a + [sep] + b;
    if |a| > 0 {
      assert s[1..] == a[1..] + [sep] + b;
      assert sep !in a[1..];
      SplitAtFirst(a[1..], sep, b);
      assert [a[0]] + a[1..] == a;
    } else {
      assert s[1..] == b;
    }
  }

  /** join inverts split. */
  lemma {:induction false} JoinSplit(s: string, sep: char)
    ensures Join(Split(s, sep), sep) == s
    decreases |s|
  {
    if |s| > 0 {
      JoinSplit(s[1..], sep);
      var rest := Split(s[1..], sep);
      if s[0] == sep {
        assert Split(s, sep) == [""] + rest;
        assert s == [sep] + s[1..];
      } else {
        var parts := Split(s, sep);
        assert parts == [[s[0]] + rest[0]] + rest[1..];
        if |rest| == 1 {
          assert Join(parts, sep) == [s[0]] + rest[0];
        } else {
          assert parts[1..] == rest[1..];
          assert Join(rest, sep) == rest[0] + [sep] + Join(rest[1..], sep);
        }
      }
    }
  }

  /** split inverts join, when no part contains the separator. */
  lemma {:induction false} SplitJoin(parts: seq<string>, sep: char)
    requires |parts| >= 1
    requires forall i :: 0 <= i < |parts| ==> sep !in parts[i]
    ensures Split(Join(parts, sep), sep) == parts
    decreases |parts|
  {
    if |parts| == 1 {
      SplitWithoutSeparator(parts[0], sep);
    } else {
      SplitJoin(parts[1..], sep);
      SplitAtFirst(parts[0], sep, Join(parts[1..], sep));
    }
  }

  /* ---------------------------------------------------------------------- */
  /* Ordering of listings                                                   */
  /* ---------------------------------------------------------------------- */

  /** `before` is a total preorder: the shape of an ORDER BY clause or a sort comparator. */
  ghost predicate TotalPreorder<T(!new)>(before: (T, T) -> bool)
  {
    (forall a, b :: before(a, b) || before(b, a))
    && (forall a, b, c :: before(a, b) && before(b, c) ==> before(a, c))
  }

  predicate SortedBy<T>(s: seq<T>, before: (T, T) -> bool)
  {
    forall i, j :: 0 <= i < j < |s| ==> before(s[i], s[j])
  }

  function Insert<T(!new)>(x: T, s: seq<T>, before: (T, T) -> bool): (r: seq<T>)
    requires TotalPreorder(before) && SortedBy(s, before)
    ensures multiset(r) == multiset(s) + multiset{x}
    ensures SortedBy(r, before)
    ensures forall y :: y in r ==> y == x || y in s
  {
    if s == [] then [x]
    else if before(x, s[0]) then [x] + s
    else
      var t := Insert(x, s[1..], before);
      assert s == [s[0]] + s[1..];
      assert forall y :: y in t ==> before(s[0], y);
      [s[0]] + t
  }

  /** Insertion sort: a permutation of s that is ordered by `before`. */
  function SortBy<T(!new)>(s: seq<T>, before: (T, T) -> bool): (r: seq<T>)
    requires TotalPreorder(before)
    ensures multiset(r) == multiset(s)
    ensures SortedBy(r, before)
  {
    if s == [] then []
    else
      assert s == [s[0]] + s[1..];
      Insert(s[0], SortBy(s[1..], before), before)
  }

  /** `orderBy: { key: 'asc' }` as a comparator. */
  function ByKey<T>(key: T -> int): (T, T) -> bool
  {
    (a: T, b: T) => key(a) <= key(b)
  }

  lemma ByKeyIsTotalPreorder<T(!new)>(key: T -> int)
    ensures TotalPreorder(ByKey(key))
  {
  }

  /** The rows a query returns, listed in ascending order of a key. */
  method EnumerateSorted<T(!new)>(rows: set<T>, key: T -> int) returns (r: seq<T>)
    ensures |r| == |rows|
    ensures forall x :: x in r <==> x in rows
    ensures Distinct(r)
    ensures SortedBy(r, ByKey(key))
  {
    ByKeyIsTotalPreorder(key);
    r := EnumerateOrdered(rows, ByKey(key));
  }

  /** The rows a query returns, listed in the order of a comparator. */
  method EnumerateOrdered<T(!new)>(rows: set<T>, before: (T, T) -> bool) returns (r: seq<T>)
    requires TotalPreorder(before)
    ensures |r| == |rows|
    ensures forall x :: x in r <==> x in rows
    ensures Distinct(r)
    ensures SortedBy(r, before)
  {
    var listed := Enumerate(rows);
    r := SortBy(listed, before);
    PermutationKeepsDistinct(listed, r);
  }

  /** The rows a query returns, in some order, each once. */
  method Enumerate<T>(rows: set<T>) returns (r: seq<T>)
    ensures |r| == |rows|
    ensures forall x :: x in r <==> x in rows
    ensures forall i, j :: 0 <= i < j < |r| ==> r[i] != r[j]
  {
    r := [];
    var rest := rows;
    while rest != {}
      invariant rest !! set x | x in r
      invariant rest + (set x | x in r) == rows
      invariant |r| + |rest| == |rows|
      invariant forall i, j :: 0 <= i < j < |r| ==> r[i] != r[j]
      decreases |rest|
    {
      var x :| x in rest;
      r := r + [x];
      rest := rest - {x};
    }
  }

  /** `filter` on a sequence. */
  function Filter<T(!new)>(s: seq<T>, keep: T -> bool): (r: seq<T>)
    ensures |r| <= |s|
    ensures forall x :: x in r <==> x in s && keep(x)
    ensures multiset(r) <= multiset(s)
  {
    if s == [] then []
    else
      assert s == [s[0]] + s[1..];
      (if keep(s[0]) then [s[0]] else []) + Filter(s[1..], keep)
  }

  /* ---------------------------------------------------------------------- */
  /* Sums                                                                   */
  /* ---------------------------------------------------------------------- */

  /** `reduce((sum, x) => sum + w(x), 0)`. */
  function SumBy<T>(s: seq<T>, w: T -> int): int
  {
    if s == [] then 0 else w(s[0]) + SumBy(s[1..], w)
  }

  lemma {:induction false} SumByAppend<T>(a: seq<T>, b: seq<T>, w: T -> int)
    ensures SumBy(a + b, w) == SumBy(a, w) + SumBy(b, w)
    decreases |a|
  {
    if a == [] {
      assert a + b == b;
    } else {
      assert (a + b)[1..] == a[1..] + b;
      SumByAppend(a[1..], b, w);
    }
  }

  /** Taking one element out of the sequence takes its weight out of the sum. */
  lemma SumByRemoveAt<T>(s: seq<T>, k: int, w: T -> int)
    requires 0 <= k < |s|
    ensures SumBy(s, w) == w(s[k]) + SumBy(s[..k] + s[k + 1..], w)
  {
    assert s == (s[..k] + [s[k]]) + s[k + 1..];
    SumByAppend(s[..k] + [s[k]], s[k + 1..], w);
    SumByAppend(s[..k], [s[k]], w);
    SumByAppend(s[..k], s[k + 1..], w);
  }

  /** A sum does not depend on the order of its terms. */
  lemma {:induction false} SumByPermutation<T>(a: seq<T>, b: seq<T>, w: T -> int)
    requires multiset(a) == multiset(b)
    ensures SumBy(a, w) == SumBy(b, w)
    decreases |a|
  {
    if a == [] {
      assert |b| == |multiset(b)| == 0;
    } else {
      var x := a[0];
      assert x in multiset(b);
      var k :| 0 <= k < |b| && b[k] == x;
      var rest := b[..k] + b[k + 1..];
      assert multiset(a[1..]) == multiset(rest) by {
        assert b == b[..k] + [x] + b[k + 1..];
        assert a == [x] + a[1..];
        assert multiset(rest) == multiset(b[..k]) + multiset(b[k + 1..]);
        assert multiset(b) == multiset(b[..k]) + multiset{x} + multiset(b[k + 1..]);
        assert multiset(a) == multiset{x} + multiset(a[1..]);
        forall y
          ensures multiset(a[1..])[y] == multiset(rest)[y]
        {
          assert multiset(a)[y] == multiset{x}[y] + multiset(a[1..])[y];
          assert multiset(b)[y] == multiset{x}[y] + multiset(rest)[y];
        }
      }
      SumByPermutation(a[1..], rest, w);
      SumByRemoveAt(b, k, w);
    }
  }

  ghost predicate Distinct<T>(s: seq<T>)
  {
    forall i, j :: 0 <= i < j < |s| ==> s[i] != s[j]
  }

  /** In a duplicate-free sequence every element occurs at most once. */
  lemma {:induction false} DistinctCountsOnce<T>(s: seq<T>, x: T)
    requires Distinct(s)
    ensures multiset(s)[x] <= 1
    decreases |s|
  {
    if s != [] {
      assert s == [s[0]] + s[1..];
      assert Distinct(s[1..]);
      DistinctCountsOnce(s[1..], x);
      if x == s[0] {
        assert x !in s[1..];
      }
    }
  }

  /** An element at two positions occurs at least twice. */
  lemma CountTwice<T>(s: seq<T>, i: int, j: int)
    requires 0 <= i < j < |s| && s[i] == s[j]
    ensures multiset(s)[s[i]] >= 2
  {
    assert s == s[..i] + [s[i]] + s[i + 1..j] + [s[j]] + s[j + 1..];
    assert multiset(s) == multiset(s[..i]) + multiset{s[i]} + multiset(s[i + 1..j]) + multiset{s[j]} + multiset(s[j + 1..]);
  }

  /** A reordering of a duplicate-free sequence is duplicate-free and has the same elements. */
  lemma PermutationKeepsDistinct<T>(a: seq<T>, b: seq<T>)
    requires multiset(a) == multiset(b) && Distinct(a)
    ensures Distinct(b)
    ensures forall x :: x in a <==> x in b
  {
    forall x
      ensures x in a <==> x in b
    {
      assert x in a <==> x in multiset(a);
      assert x in b <==> x in multiset(b);
    }
    forall i, j | 0 <= i < j < |b|
      ensures b[i] != b[j]
    {
      if b[i] == b[j] {
        CountTwice(b, i, j);
        DistinctCountsOnce(a, b[i]);
        assert false;
      }
    }
  }

  /** Removing position k of a duplicate-free sequence removes exactly the element s[k]. */
  lemma RemoveAtOfDistinct<T>(s: seq<T>, k: int)
    requires Distinct(s) && 0 <= k < |s|
    ensures Distinct(s[..k] + s[k + 1..])
    ensures forall y :: y in s[..k] + s[k + 1..] <==> y in s && y != s[k]
  {
    var rest := s[..k] + s[k + 1..];
    assert forall i :: 0 <= i < |rest| ==> rest[i] == s[if i < k then i else i + 1];
    forall y | y in s && y != s[k]
      ensures y in rest
    {
      var m :| 0 <= m < |s| && s[m] == y;
      assert rest[if m < k then m else m - 1] == y;
    }
  }

  /** A non-empty sequence has its first element in it. */
  lemma EmptyOrHasHead<T>(b: seq<T>)
    ensures b == [] || b[0] in b
  {
  }

  /** Removing position k takes exactly one copy of s[k] out of the multiset. */
  lemma MultisetRemoveAt<T>(s: seq<T>, k: int)
    requires 0 <= k < |s|
    ensures multiset(s) == multiset{s[k]} + multiset(s[..k] + s[k + 1..])
  {
    assert s == s[..k] + [s[k]] + s[k + 1..];
  }

  /** Dropping a shared element from two duplicate-free listings keeps them listings of the same elements. */
  lemma DropShared<T>(a: seq<T>, b: seq<T>, k: int)
    requires Distinct(a) && Distinct(b) && |a| > 0 && 0 <= k < |b| && b[k] == a[0]
    requires forall x :: x in a <==> x in b
    ensures Distinct(a[1..]) && Distinct(b[..k] + b[k + 1..])
    ensures forall y :: y in a[1..] <==> y in b[..k] + b[k + 1..]
  {
    RemoveAtOfDistinct(a, 0);
    RemoveAtOfDistinct(b, k);
    assert a[..0] + a[1..] == a[1..];
    forall y
      ensures y in a[1..] <==> y in b[..k] + b[k + 1..]
    {
      assert y in a[1..] <==> y in a && y != a[0];
      assert y in b[..k] + b[k + 1..] <==> y in b && y != b[k];
    }
  }

  /** Two duplicate-free listings of the same elements are permutations of each other. */
  lemma {:induction false} DistinctListingsArePermutations<T>(a: seq<T>, b: seq<T>)
    requires Distinct(a) && Distinct(b)
    requires forall x :: x in a <==> x in b
    ensures multiset(a) == multiset(b)
    decreases |a|
  {
    if a == [] {
      EmptyOrHasHead(b);
    } else {
      assert a[0] in b;
      var k :| 0 <= k < |b| && b[k] == a[0];
      var rest := b[..k] + b[k + 1..];
      DropShared(a, b, k);
      DistinctListingsArePermutations(a[1..], rest);
      MultisetRemoveAt(b, k);
      assert a == [a[0]] + a[1..];
      calc {
        multiset(a);
        multiset{a[0]} + multiset(a[1..]);
        multiset{b[k]} + multiset(rest);
        multiset(b);
      }
    }
  }

  /** Two sequences whose terms weigh the same, position by position, have the same sum. */
  lemma {:induction false} SumByPointwise<S, T>(a: seq<S>, v: S -> int, b: seq<T>, w: T -> int)
    requires |a| == |b|
    requires forall k :: 0 <= k < |a| ==> v(a[k]) == w(b[k])
    ensures SumBy(a, v) == SumBy(b, w)
    decreases |a|
  {
    if a != [] {
      SumByPointwise(a[1..], v, b[1..], w);
    }
  }

  /** Non-negative terms give a non-negative sum. */
  lemma {:induction false} SumByNonNegative<T>(s: seq<T>, w: T -> int)
    requires forall k :: 0 <= k < |s| ==> w(s[k]) >= 0
    ensures SumBy(s, w) >= 0
    decreases |s|
  {
    if s != [] {
      SumByNonNegative(s[1..], w);
    }
  }

  /* ---------------------------------------------------------------------- */
  /* Pagination                                                             */
  /* ---------------------------------------------------------------------- */

  /**
   * A JavaScript number as `Math.ceil(total / limit)` yields it for a whole
   * total and limit: a whole number, Infinity (a positive total over 0) or NaN
   * (0 / 0). The JSON body shows the last two as null.
   */
  datatype Ceiling = Finite(value: int) | Infinity | NaN

  /** JavaScript `page < c`: every number is below Infinity and none compares with NaN. */
  predicate Below(page: int, c: Ceiling)
  {
    match c
    case Finite(v) => page < v
    case Infinity => true
    case NaN => false
  }

  datatype Pagination = Pagination(skip: int, totalPages: Ceiling, hasMore: bool)

  /** `Math.ceil(a / b)` for a whole divisor of any sign. */
  function CeilDiv(a: nat, b: int): Ceiling
  {
    if b > 0 then Finite((a + b - 1) / b)
    else if b == 0 then (if a > 0 then Infinity else NaN)
    else Finite(-(a / -b))
  }

  /**
   * skip = (page - 1) * limit, totalPages = ceil(total / limit), hasMore = page < totalPages,
   * over any page and limit `parseInt` yields.
   */
  function Paginate(page: int, limit: int, total: nat): Pagination
  {
    var pages := CeilDiv(total, limit);
    Pagination((page - 1) * limit, pages, Below(page, pages))
  }

  /**
   * hasMore holds exactly when some row lies beyond the requested page, for a
   * positive limit. A limit of 0 gives infinitely many pages whenever a row
   * matches, so every page reports more; a negative limit flips the comparison.
   */
  lemma PaginateHasMore(page: int, limit: int, total: nat)
    ensures limit > 0 ==> (Paginate(page, limit, total).hasMore <==> page * limit < total)
    ensures limit > 0 ==> && Paginate(page, limit, total).totalPages.Finite?
                          && Paginate(page, limit, total).totalPages.value * limit >= total
                          && (total > 0 ==> (Paginate(page, limit, total).totalPages.value - 1) * limit < total)
    ensures limit == 0 ==> (Paginate(page, limit, total).hasMore <==> total > 0)
    ensures limit == 0 ==> (Paginate(page, limit, total).totalPages == Infinity <==> total > 0)
    ensures limit < 0 ==> (Paginate(page, limit, total).hasMore <==> page * limit > total)
    ensures limit < 0 ==> Paginate(page, limit, total).totalPages.Finite?
                          && Paginate(page, limit, total).totalPages.value <= 0
  {
    if limit > 0 {
      PositiveLimitPages(page, limit, total);
    } else if limit < 0 {
      NegativeLimitPages(page, limit, total);
    }
  }

  /** For a positive limit, q = ceil(total / limit) pages cover the rows, and page < q exactly when rows remain. */
  lemma PositiveLimitPages(page: int, limit: int, total: nat)
    requires limit > 0
    ensures var q := (total + limit - 1) / limit;
      && (page < q <==> page * limit < total)
      && q * limit >= total
      && (total > 0 ==> (q - 1) * limit < total)
  {
    var q := (total + limit - 1) / limit;
    var rm := (total + limit - 1) % limit;
    assert total + limit - 1 == q * limit + rm;
    if page < q {
      MulLeq(page, q - 1, limit);
      assert page * limit <= q * limit - limit;
    } else {
      MulLeq(q, page, limit);
    }
  }

  /** For a negative limit, page < -(total / -limit) exactly when page * limit > total. */
  lemma NegativeLimitPages(page: int, limit: int, total: nat)
    requires limit < 0
    ensures page < -(total / -limit) <==> page * limit > total
  {
    var m := -limit;
    var q := total / m;
    assert total == q * m + total % m;
    assert page * limit == (-page) * m;
    if page < -q {
      MulLeq(q + 1, -page, m);
    } else {
      MulLeq(-page, q, m);
    }
  }

  lemma MulLeq(a: int, b: int, c: nat)
    requires a <= b
    ensures a * c <= b * c
  {
  }
}
