/** Stable sorting of sequences, as `Array.prototype.sort` does it, and the order of strings. */
module Sorting {
  ghost predicate TotalPreorder<T(!new)>(leq: (T, T) -> bool) {
    && (forall a, b :: leq(a, b) || leq(b, a))
    && (forall a, b, c :: leq(a, b) && leq(b, c) ==> leq(a, c))
  }

  ghost predicate Sorted<T>(s: seq<T>, leq: (T, T) -> bool) {
    forall i, j :: 0 <= i < j < |s| ==> leq(s[i], s[j])
  }

  /** `x` goes behind everything that is not greater. */
  function Insert<T>(x: T, s: seq<T>, leq: (T, T) -> bool): seq<T> {
    if s == [] || !leq(s[0], x) then [x] + s else [s[0]] + Insert(x, s[1..], leq)
  }

  function Sort<T>(s: seq<T>, leq: (T, T) -> bool): seq<T> {
    if s == [] then [] else Insert(s[|s| - 1], Sort(s[..|s| - 1], leq), leq)
  }

  function Filter<T>(s: seq<T>, p: T -> bool): seq<T> {
    if s == [] then []
    else if p(s[0]) then [s[0]] + Filter(s[1..], p)
    else Filter(s[1..], p)
  }

  lemma {:induction false} InsertAdds<T>(x: T, s: seq<T>, leq: (T, T) -> bool)
    ensures multiset(Insert(x, s, leq)) == multiset(s) + multiset{x}
  {
    if s != [] && leq(s[0], x) {
      InsertAdds(x, s[1..], leq);
      assert s == [s[0]] + s[1..];
    }
  }

  lemma {:induction false} ConsKeepsSorted<T(!new)>(x: T, s: seq<T>, leq: (T, T) -> bool)
    requires Sorted(s, leq) && forall y :: y in multiset(s) ==> leq(x, y)
    ensures Sorted([x] + s, leq)
  {
    forall k | 0 <= k < |s| ensures leq(x, s[k]) { assert s[k] in multiset(s); }
  }

  lemma {:induction false} InsertKeepsSorted<T(!new)>(x: T, s: seq<T>, leq: (T, T) -> bool)
    requires TotalPreorder(leq) && Sorted(s, leq)
    ensures Sorted(Insert(x, s, leq), leq)
  {
    if s != [] {
      assert forall y :: y in multiset(s) ==> leq(s[0], y) by {
        forall y | y in multiset(s) ensures leq(s[0], y) { HeadIsLeast(s, y, leq); }
      }
      if leq(s[0], x) {
        InsertAdds(x, s[1..], leq);
        TailMultiset(s);
        InsertKeepsSorted(x, s[1..], leq);
        ConsKeepsSorted(s[0], Insert(x, s[1..], leq), leq);
      } else {
        ConsKeepsSorted(x, s, leq);
      }
    }
  }

  lemma {:induction false} SortSorts<T(!new)>(s: seq<T>, leq: (T, T) -> bool)
    requires TotalPreorder(leq)
    ensures Sorted(Sort(s, leq), leq) && multiset(Sort(s, leq)) == multiset(s)
  {
    hide Insert;
    hide TotalPreorder;
    if s == [] {
      assert Sort(s, leq) == [];
    } else {
      var init, last := s[..|s| - 1], s[|s| - 1];
      SortSorts(init, leq);
      assert Sort(s, leq) == Insert(last, Sort(init, leq), leq);
      hide Sort;
      hide Sorted;
      InsertKeepsSorted(last, Sort(init, leq), leq);
      InsertAdds(last, Sort(init, leq), leq);
      assert s == init + [last];
    }
  }

  lemma {:induction false} FilterMember<T(!new)>(s: seq<T>, p: T -> bool)
    ensures forall y :: y in Filter(s, p) <==> y in s && p(y)
  {
    if s != [] { FilterMember(s[1..], p); }
  }

  lemma {:induction false} NothingKept<T>(s: seq<T>, p: T -> bool)
    requires forall i :: 0 <= i < |s| ==> !p(s[i])
    ensures Filter(s, p) == []
  {
    if s != [] { NothingKept(s[1..], p); }
  }

  lemma {:induction false} FilterAppend<T>(a: seq<T>, x: T, p: T -> bool)
    ensures Filter(a + [x], p) == if p(x) then Filter(a, p) + [x] else Filter(a, p)
  {
    if a == [] {
      assert a + [x] == [x];
    } else {
      assert (a + [x])[1..] == a[1..] + [x];
      FilterAppend(a[1..], x, p);
    }
  }

  lemma {:induction false} InsertFirst<T>(x: T, s: seq<T>, leq: (T, T) -> bool)
    requires forall y :: y in s ==> !leq(y, x)
    ensures Insert(x, s, leq) == [x] + s
  {
  }

  lemma {:induction false} FilterInsert<T(!new)>(x: T, s: seq<T>, leq: (T, T) -> bool, p: T -> bool)
    requires TotalPreorder(leq) && Sorted(s, leq)
    ensures Filter(Insert(x, s, leq), p) == if p(x) then Insert(x, Filter(s, p), leq) else Filter(s, p)
  {
    if s == [] {
    } else if leq(s[0], x) {
      FilterInsert(x, s[1..], leq, p);
      assert Insert(x, s, leq)[1..] == Insert(x, s[1..], leq);
    } else {
      assert ([x] + s)[1..] == s;
      NothingLess(x, s, leq);
      FilterMember(s, p);
      hide Sorted;
      InsertFirst(x, Filter(s, p), leq);
    }
  }

  lemma {:induction false} NothingLess<T(!new)>(x: T, s: seq<T>, leq: (T, T) -> bool)
    requires TotalPreorder(leq) && Sorted(s, leq) && s != [] && !leq(s[0], x)
    ensures forall y :: y in s ==> !leq(y, x)
  {
    forall y | y in s ensures !leq(y, x) {
      assert y in multiset(s);
      HeadIsLeast(s, y, leq);
    }
  }

  /** A stable sort may be done before or after selecting rows. */
  lemma {:induction false} FilterSort<T(!new)>(s: seq<T>, leq: (T, T) -> bool, p: T -> bool)
    requires TotalPreorder(leq)
    ensures Filter(Sort(s, leq), p) == Sort(Filter(s, p), leq)
  {
    hide TotalPreorder;
    hide Filter;
    hide Insert;
    hide Sorted;
    if s != [] {
      var init, last := s[..|s| - 1], s[|s| - 1];
      FilterSort(init, leq, p);
      SortSorts(init, leq);
      FilterInsert(last, Sort(init, leq), leq, p);
      assert s == init + [last];
      hide Sort;
      FilterAppend(init, last, p);
      SortAppend(init, last, leq);
      SortAppend(Filter(init, p), last, leq);
    } else {
      NothingToFilter(s, p);
    }
  }

  lemma {:induction false} NothingToFilter<T>(s: seq<T>, p: T -> bool)
    requires s == []
    ensures Filter(s, p) == []
  {
  }

  lemma {:induction false} SortAppend<T>(s: seq<T>, x: T, leq: (T, T) -> bool)
    ensures Sort(s + [x], leq) == Insert(x, Sort(s, leq), leq)
  {
    assert (s + [x])[..|s|] == s;
  }

  ghost predicate NoTies<T(!new)>(m: multiset<T>, leq: (T, T) -> bool) {
    forall x, y :: x in m && y in m && leq(x, y) && leq(y, x) ==> x == y
  }

  lemma {:induction false} HeadIsLeast<T(!new)>(a: seq<T>, x: T, leq: (T, T) -> bool)
    requires Sorted(a, leq) && x in multiset(a)
    ensures a[0] == x || leq(a[0], x)
  {
    var i :| 0 <= i < |a| && a[i] == x;
  }

  lemma {:induction false} SameHead<T(!new)>(a: seq<T>, b: seq<T>, leq: (T, T) -> bool)
    requires a != [] && Sorted(a, leq) && Sorted(b, leq) && multiset(a) == multiset(b)
    requires NoTies(multiset(a), leq)
    ensures b != [] && a[0] == b[0]
  {
    assert |multiset(a)| == |multiset(b)|;
    assert a[0] in multiset(a) && b[0] in multiset(b);
    hide Sorted;
    HeadIsLeast(a, b[0], leq);
    HeadIsLeast(b, a[0], leq);
  }

  lemma {:induction false} TailMultiset<T>(a: seq<T>)
    requires a != []
    ensures multiset(a[1..]) == multiset(a) - multiset{a[0]}
  {
    assert a == [a[0]] + a[1..];
  }

  lemma {:induction false} TailIsSorted<T(!new)>(a: seq<T>, leq: (T, T) -> bool)
    requires a != [] && Sorted(a, leq)
    ensures Sorted(a[1..], leq)
  {
  }

  lemma {:induction false} FewerNoTies<T(!new)>(m: multiset<T>, x: T, leq: (T, T) -> bool)
    requires NoTies(m, leq)
    ensures NoTies(m - multiset{x}, leq)
  {
  }

  lemma {:induction false} SameHeadAndTail<T>(a: seq<T>, b: seq<T>)
    requires a != [] && b != [] && a[0] == b[0] && a[1..] == b[1..]
    ensures a == b
  {
    assert a == [a[0]] + a[1..] && b == [b[0]] + b[1..];
  }

  /** Sorting forgets the order it was given when no two elements tie. */
  lemma {:induction false} SortedIsUnique<T(!new)>(a: seq<T>, b: seq<T>, leq: (T, T) -> bool)
    requires Sorted(a, leq) && Sorted(b, leq) && multiset(a) == multiset(b)
    requires NoTies(multiset(a), leq)
    ensures a == b
  {
    hide Sorted;
    hide NoTies;
    if |a| == 0 {
      assert |multiset(a)| == |multiset(b)|;
    } else {
      SameHead(a, b, leq);
      TailMultiset(a);
      TailMultiset(b);
      TailIsSorted(a, leq);
      TailIsSorted(b, leq);
      FewerNoTies(multiset(a), a[0], leq);
      SortedIsUnique(a[1..], b[1..], leq);
      SameHeadAndTail(a, b);
    }
  }

  // ---- Strings -------------------------------------------------------------------------------------

  /** The default order of strings: code unit by code unit. */
  predicate StringLe(a: string, b: string) {
    a == [] || (b != [] && (a[0] < b[0] || (a[0] == b[0] && StringLe(a[1..], b[1..]))))
  }

  lemma {:induction false} StringLeTotal(a: string, b: string)
    ensures StringLe(a, b) || StringLe(b, a)
    ensures StringLe(a, b) && StringLe(b, a) ==> a == b
  {
    if a != [] && b != [] {
      StringLeTotal(a[1..], b[1..]);
      assert a == [a[0]] + a[1..] && b == [b[0]] + b[1..];
    }
  }

  lemma {:induction false} StringLeTransitive(a: string, b: string, c: string)
    requires StringLe(a, b) && StringLe(b, c)
    ensures StringLe(a, c)
  {
    if a != [] && b != [] && c != [] && a[0] == b[0] == c[0] {
      StringLeTransitive(a[1..], b[1..], c[1..]);
    }
  }

  lemma {:induction false} StringLeOrders()
    ensures TotalPreorder(StringLe)
    ensures forall a, b :: StringLe(a, b) && StringLe(b, a) ==> a == b
  {
    forall a, b ensures StringLe(a, b) || StringLe(b, a) { StringLeTotal(a, b); }
    forall a, b | StringLe(a, b) && StringLe(b, a) ensures a == b { StringLeTotal(a, b); }
    forall a, b, c | StringLe(a, b) && StringLe(b, c) ensures StringLe(a, c) { StringLeTransitive(a, b, c); }
  }

  /** A permutation of sorted strings sorts to them. */
  lemma {:induction false} SortStrings(s: seq<string>, sorted: seq<string>)
    requires multiset(s) == multiset(sorted) && Sorted(sorted, StringLe)
    ensures Sort(s, StringLe) == sorted
  {
    StringLeOrders();
    SortSorts(s, StringLe);
    SortedIsUnique(Sort(s, StringLe), sorted, StringLe);
  }
}
