/** The two sorts the forecast grouping performs: `Object.keys(grouped).sort()`
    (default order: UTF-16 code unit by code unit) and
    `bucket.sort((a, b) => a.dt - b.dt)`. `Array.prototype.sort` is stable,
    so both are modelled by one stable insertion sort over a total preorder. */
module Sorting {
  import opened Common

  ghost predicate TotalPreorder<T(!new)>(le: (T, T) -> bool) {
    (forall a, b :: le(a, b) || le(b, a)) &&
    (forall a, b, c :: le(a, b) && le(b, c) ==> le(a, c))
  }

  predicate SortedBy<T>(s: seq<T>, le: (T, T) -> bool) {
    forall i, j :: 0 <= i < j < |s| ==> le(s[i], s[j])
  }

  /** Places `x` in front of the first element it is `le` to. */
  function Insert<T(!new)>(x: T, s: seq<T>, le: (T, T) -> bool): (r: seq<T>)
    requires TotalPreorder(le)
    requires SortedBy(s, le)
    ensures multiset(r) == multiset(s) + multiset{x}
    ensures SortedBy(r, le)
  {
    if s == [] then [x]
    else if le(x, s[0]) then [x] + s
    else
      var rest := Insert(x, s[1..], le);
      assert s == [s[0]] + s[1..];
      InsertHeadFirst(x, s, le, rest);
      [s[0]] + rest
  }

  /** The head of `s` still comes first when `x` goes after it. */
  lemma InsertHeadFirst<T>(x: T, s: seq<T>, le: (T, T) -> bool, rest: seq<T>)
    requires s != [] && le(s[0], x)
    requires SortedBy(s, le) && SortedBy(rest, le)
    requires multiset(rest) == multiset(s[1..]) + multiset{x}
    ensures SortedBy([s[0]] + rest, le)
  {
    forall i | 0 <= i < |rest| ensures le(s[0], rest[i]) {
      assert rest[i] in multiset(rest);
      if rest[i] != x {
        assert rest[i] in multiset(s[1..]);
        var j :| 0 <= j < |s[1..]| && s[1..][j] == rest[i];
        assert s[j + 1] == rest[i];
      }
    }
  }

  function InsertionSort<T(!new)>(s: seq<T>, le: (T, T) -> bool): (r: seq<T>)
    requires TotalPreorder(le)
    ensures multiset(r) == multiset(s)
    ensures SortedBy(r, le)
  {
    if s == [] then []
    else
      assert s == [s[0]] + s[1..];
      Insert(s[0], InsertionSort(s[1..], le), le)
  }

  // ---------------------------------------------------------------------
  // Stability: elements that compare equal keep their input order.

  /** The elements of `s` that compare equal to `e`, in order. */
  function EquivTo<T>(s: seq<T>, e: T, le: (T, T) -> bool): seq<T> {
    if s == [] then []
    else (if le(s[0], e) && le(e, s[0]) then [s[0]] else []) + EquivTo(s[1..], e, le)
  }

  lemma EquivToCons<T>(y: T, t: seq<T>, e: T, le: (T, T) -> bool)
    ensures EquivTo([y] + t, e, le) == (if le(y, e) && le(e, y) then [y] else []) + EquivTo(t, e, le)
  {
    assert ([y] + t)[1..] == t;
  }

  /** An element strictly above `x` cannot compare equal to what `x`
      compares equal to. */
  lemma HeadNotEquivToBoth<T(!new)>(x: T, y: T, e: T, le: (T, T) -> bool)
    requires TotalPreorder(le) && !le(x, y)
    ensures !(le(x, e) && le(e, x) && le(y, e) && le(e, y))
  {
  }

  /** `x` goes in front of every element of `s` that compares equal to it. */
  lemma {:induction false} InsertEquiv<T(!new)>(x: T, s: seq<T>, le: (T, T) -> bool, e: T)
    requires TotalPreorder(le) && SortedBy(s, le)
    ensures EquivTo(Insert(x, s, le), e, le) ==
      (if le(x, e) && le(e, x) then [x] else []) + EquivTo(s, e, le)
    decreases |s|
  {
    if s == [] || le(x, s[0]) {
      assert Insert(x, s, le) == [x] + s;
      EquivToCons(x, s, e, le);
    } else {
      var rest := Insert(x, s[1..], le);
      assert Insert(x, s, le) == [s[0]] + rest;
      var hx := if le(x, e) && le(e, x) then [x] else [];
      var h0 := if le(s[0], e) && le(e, s[0]) then [s[0]] else [];
      var tail := EquivTo(s[1..], e, le);
      InsertEquiv(x, s[1..], le, e);
      assert EquivTo(rest, e, le) == hx + tail;
      EquivToCons(s[0], rest, e, le);
      assert EquivTo([s[0]] + rest, e, le) == h0 + (hx + tail);
      assert EquivTo(s, e, le) == h0 + tail;
      HeadNotEquivToBoth(x, s[0], e, le);
      SwapPastEmpty(h0, hx, tail);
    }
  }

  lemma SwapPastEmpty<T>(a: seq<T>, b: seq<T>, c: seq<T>)
    requires a == [] || b == []
    ensures a + (b + c) == b + (a + c)
  {
    if a == [] {
      assert a + (b + c) == b + c && a + c == c;
    } else {
      assert b + c == c && b + (a + c) == a + c;
    }
  }

  /** The sort is stable: for every `e`, the elements equal to `e` come out
      in the order they went in. */
  lemma {:induction false} InsertionSortStable<T(!new)>(s: seq<T>, le: (T, T) -> bool, e: T)
    requires TotalPreorder(le)
    ensures EquivTo(InsertionSort(s, le), e, le) == EquivTo(s, e, le)
    decreases |s|
  {
    if s != [] {
      InsertionSortStable(s[1..], le, e);
      InsertEquiv(s[0], InsertionSort(s[1..], le), le, e);
    }
  }

  /** A permutation of a duplicate-free sequence is duplicate-free. */
  lemma PermutationDistinct<T>(s: seq<T>, r: seq<T>)
    requires multiset(r) == multiset(s) && Distinct(s)
    ensures Distinct(r)
  {
    forall i, j | 0 <= i < j < |r| ensures r[i] != r[j] {
      if r[i] == r[j] {
        var x := r[i];
        assert multiset(r)[x] >= 2 by {
          assert r == r[..i] + [x] + r[i + 1..j] + [x] + r[j + 1..];
        }
        DistinctCount(s, x);
        assert false;
      }
    }
  }

  lemma {:induction false} DistinctCount<T>(s: seq<T>, x: T)
    requires Distinct(s)
    ensures multiset(s)[x] <= 1
  {
    if s != [] {
      assert s == [s[0]] + s[1..];
      assert Distinct(s[1..]) by {
        forall i, j | 0 <= i < j < |s[1..]| ensures s[1..][i] != s[1..][j] {
          assert s[1..][i] == s[i + 1] && s[1..][j] == s[j + 1];
        }
      }
      DistinctCount(s[1..], x);
      if s[0] == x {
        assert x !in s[1..];
      }
    }
  }

  // ---------------------------------------------------------------------
  // Default `sort()` order on strings: UTF-16 code unit by code unit, a
  // proper prefix first. `KeyLe` compares code points; `UnitsLe` is the
  // order on the encoded units, and the two agree on strings without
  // surrogate pairs (`KeyLeIsUnitOrder`).

  predicate UnitsLe(a: seq<int>, b: seq<int>)
    decreases |a|
  {
    a == [] || (b != [] && (a[0] < b[0] || (a[0] == b[0] && UnitsLe(a[1..], b[1..]))))
  }

  predicate KeyLe(a: string, b: string)
    decreases |a|
  {
    a == [] || (b != [] && (a[0] < b[0] || (a[0] == b[0] && KeyLe(a[1..], b[1..]))))
  }

  /** Without surrogate pairs, comparing code points is comparing the
      UTF-16 units `sort()` compares. */
  lemma {:induction false} KeyLeIsUnitOrder(a: string, b: string)
    requires InBmp(a) && InBmp(b)
    ensures KeyLe(a, b) <==> UnitsLe(Units(a), Units(b))
    decreases |a|
  {
    if a != [] && b != [] {
      assert InBmp(a[1..]) && InBmp(b[1..]) by {
        InBmpConcat([a[0]], a[1..]);
        InBmpConcat([b[0]], b[1..]);
        assert a == [a[0]] + a[1..] && b == [b[0]] + b[1..];
      }
      var ua, ub := Units(a), Units(b);
      assert ua == [a[0] as int] + Units(a[1..]);
      assert ub == [b[0] as int] + Units(b[1..]);
      assert ua[0] == a[0] as int && ua[1..] == Units(a[1..]);
      assert ub[0] == b[0] as int && ub[1..] == Units(b[1..]);
      KeyLeIsUnitOrder(a[1..], b[1..]);
    } else if a != [] {
      assert Units(a) != [];
    }
  }

  lemma {:induction false} KeyLeTotal(a: string, b: string)
    ensures KeyLe(a, b) || KeyLe(b, a)
    decreases |a|
  {
    if a != [] && b != [] && a[0] == b[0] {
      KeyLeTotal(a[1..], b[1..]);
    }
  }

  lemma {:induction false} KeyLeTransitive(a: string, b: string, c: string)
    requires KeyLe(a, b) && KeyLe(b, c)
    ensures KeyLe(a, c)
    decreases |a|
  {
    if a != [] && a[0] == b[0] && b[0] == c[0] {
      KeyLeTransitive(a[1..], b[1..], c[1..]);
    }
  }

  lemma {:induction false} KeyLeAntisymmetric(a: string, b: string)
    requires KeyLe(a, b) && KeyLe(b, a)
    ensures a == b
    decreases |a|
  {
    if a != [] {
      KeyLeAntisymmetric(a[1..], b[1..]);
      assert a == [a[0]] + a[1..] && b == [b[0]] + b[1..];
    }
  }

  lemma KeyLeIsTotalPreorder()
    ensures TotalPreorder(KeyLe)
  {
    forall a, b ensures KeyLe(a, b) || KeyLe(b, a) {
      KeyLeTotal(a, b);
    }
    forall a, b, c | KeyLe(a, b) && KeyLe(b, c) ensures KeyLe(a, c) {
      KeyLeTransitive(a, b, c);
    }
  }

  /** Comparing two strings that start with equal-length parts: the parts
      decide unless they are equal, and then the rests do. */
  lemma KeyLeConcat(a1: string, a2: string, b1: string, b2: string)
    requires |a1| == |b1|
    ensures a1 == b1 ==> (KeyLe(a1 + a2, b1 + b2) <==> KeyLe(a2, b2))
    ensures a1 != b1 ==> (KeyLe(a1 + a2, b1 + b2) <==> KeyLe(a1, b1))
  {
    if a1 == b1 {
      KeyLeCommonPrefix(a1, a2, b2);
    } else {
      KeyLeDifferentPrefix(a1, a2, b1, b2);
    }
  }

  lemma {:induction false} KeyLeCommonPrefix(p: string, a: string, b: string)
    ensures KeyLe(p + a, p + b) <==> KeyLe(a, b)
    decreases |p|
  {
    if p == [] {
      assert p + a == a && p + b == b;
    } else {
      var u, v := p + a, p + b;
      assert u[0] == v[0] && u != [] && v != [];
      assert u[1..] == p[1..] + a && v[1..] == p[1..] + b;
      KeyLeCommonPrefix(p[1..], a, b);
    }
  }

  lemma {:induction false} KeyLeDifferentPrefix(a1: string, a2: string, b1: string, b2: string)
    requires |a1| == |b1| && a1 != b1
    ensures KeyLe(a1 + a2, b1 + b2) <==> KeyLe(a1, b1)
    decreases |a1|
  {
    var u, v := a1 + a2, b1 + b2;
    assert u[0] == a1[0] && v[0] == b1[0];
    if a1[0] == b1[0] {
      assert a1[1..] != b1[1..] by {
        assert a1 == [a1[0]] + a1[1..] && b1 == [b1[0]] + b1[1..];
      }
      assert u[1..] == a1[1..] + a2 && v[1..] == b1[1..] + b2;
      KeyLeDifferentPrefix(a1[1..], a2, b1[1..], b2);
    }
  }

  /** On numerals of the same width, the string order is the numeric order. */
  lemma {:induction false} KeyLeDigits(s: string, t: string)
    requires |s| == |t| && AllDigits(s) && AllDigits(t)
    ensures KeyLe(s, t) <==> DigitsValue(s) <= DigitsValue(t)
    decreases |s|
  {
    if s != [] {
      var s', t' := s[1..], t[1..];
      assert s == [s[0]] + s' && t == [t[0]] + t';
      DigitsValueCons(s[0], s');
      DigitsValueCons(t[0], t');
      DigitsValueBound(s');
      DigitsValueBound(t');
      var c, d := DigitValue(s[0]), DigitValue(t[0]);
      if c < d {
        LeadingDigitDecides(c, d, DigitsValue(s'), DigitsValue(t'), Pow10(|s'|));
      } else if c > d {
        LeadingDigitDecides(d, c, DigitsValue(t'), DigitsValue(s'), Pow10(|s'|));
      } else {
        KeyLeDigits(s', t');
      }
    }
  }

  /** A smaller leading digit makes a smaller number, whatever follows. */
  lemma LeadingDigitDecides(c: nat, d: nat, x: nat, y: nat, p: nat)
    requires c < d && x < p && y < p
    ensures c * p + x < d * p + y
  {
    var k := d - c - 1;
    assert d * p == c * p + p + k * p;
    assert k * p >= 0;
  }

  /** Sorting duplicate-free keys gives a strictly ascending sequence. */
  lemma SortedDistinctKeysAscending(s: seq<string>)
    requires SortedBy(s, KeyLe) && Distinct(s)
    ensures forall i, j :: 0 <= i < j < |s| ==> KeyLe(s[i], s[j]) && !KeyLe(s[j], s[i])
  {
    forall i, j | 0 <= i < j < |s| ensures !KeyLe(s[j], s[i]) {
      if KeyLe(s[j], s[i]) {
        KeyLeAntisymmetric(s[i], s[j]);
      }
    }
  }
}
