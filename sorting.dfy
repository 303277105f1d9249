/** The two orderings the source sorts by: ingredients by expiry date with
    undated ones last (lib/data-store.ts `sortIngredientsByExpiry`, repeated
    in the suggestion route), and sales by name. Array `sort` in JavaScript
    is stable; the model is a stable insertion sort on a copy of the input,
    so the input itself is never touched. */
module Sorting {
  import opened Wrappers
  import opened Text
  import opened Seqs
  import opened Types

  /** `le` is a total preorder: every two elements compare, transitively. */
  ghost predicate TotalPreorder<T(!new)>(le: (T, T) -> bool) {
    (forall a, b :: le(a, b) || le(b, a))
    && (forall a, b, c :: le(a, b) && le(b, c) ==> le(a, c))
  }

  ghost predicate SortedBy<T>(s: seq<T>, le: (T, T) -> bool) {
    forall i, j :: 0 <= i < j < |s| ==> le(s[i], s[j])
  }

  /** Insert `x` before the first element it is not strictly after. */
  function Insert<T>(x: T, s: seq<T>, le: (T, T) -> bool): seq<T> {
    if s == [] || le(x, s[0]) then [x] + s
    else [s[0]] + Insert(x, s[1..], le)
  }

  function InsertionSort<T>(s: seq<T>, le: (T, T) -> bool): seq<T> {
    if s == [] then [] else Insert(s[0], InsertionSort(s[1..], le), le)
  }

  lemma {:induction false} InsertPermutes<T>(x: T, s: seq<T>, le: (T, T) -> bool)
    ensures multiset(Insert(x, s, le)) == multiset(s) + multiset{x}
  {
    if s != [] && !le(x, s[0]) {
      InsertPermutes(x, s[1..], le);
      assert s == [s[0]] + s[1..];
    }
  }

  lemma {:induction false} InsertSorted<T(!new)>(x: T, s: seq<T>, le: (T, T) -> bool)
    requires TotalPreorder(le) && SortedBy(s, le)
    ensures SortedBy(Insert(x, s, le), le)
  {
    if s != [] && !le(x, s[0]) {
      InsertSorted(x, s[1..], le);
      InsertPermutes(x, s[1..], le);
      var r := Insert(x, s[1..], le);
      forall j | 0 <= j < |r| ensures le(s[0], r[j]) {
        assert r[j] in multiset(r);
        assert r[j] == x || r[j] in multiset(s[1..]);
      }
    }
  }

  lemma {:induction false} SortPermutes<T>(s: seq<T>, le: (T, T) -> bool)
    ensures multiset(InsertionSort(s, le)) == multiset(s)
  {
    if s != [] {
      SortPermutes(s[1..], le);
      InsertPermutes(s[0], InsertionSort(s[1..], le), le);
      assert s == [s[0]] + s[1..];
    }
  }

  lemma {:induction false} SortSorted<T(!new)>(s: seq<T>, le: (T, T) -> bool)
    requires TotalPreorder(le)
    ensures SortedBy(InsertionSort(s, le), le)
  {
    if s != [] {
      SortSorted(s[1..], le);
      InsertSorted(s[0], InsertionSort(s[1..], le), le);
    }
  }

  /** Inserting adds one to the count of elements satisfying `p` exactly when `x` does. */
  lemma {:induction false} InsertFilterCount<T>(x: T, s: seq<T>, le: (T, T) -> bool, p: T -> bool)
    ensures |Filter(Insert(x, s, le), p)| == |Filter(s, p)| + (if p(x) then 1 else 0)
  {
    if s != [] && !le(x, s[0]) {
      InsertFilterCount(x, s[1..], le, p);
    }
  }

  /** Sorting keeps the number of elements satisfying any predicate. */
  lemma {:induction false} SortFilterCount<T>(s: seq<T>, le: (T, T) -> bool, p: T -> bool)
    ensures |Filter(InsertionSort(s, le), p)| == |Filter(s, p)|
  {
    if s != [] {
      SortFilterCount(s[1..], le, p);
      InsertFilterCount(s[0], InsertionSort(s[1..], le), le, p);
    }
  }

  /** `!item.expiryDate` is false: the ingredient has a (non-empty) expiry date. */
  predicate HasExpiry(i: Ingredient) {
    Present(i.expiryDate)
  }

  /** The comparator of `sortIngredientsByExpiry` says `a` may stay before `b`
      (it returns 0 or less): `b` is undated, or both are dated and `a`'s
      date is not later. */
  predicate ExpiryLe(a: Ingredient, b: Ingredient) {
    !HasExpiry(b) || (HasExpiry(a) && LexLe(a.expiryDate.value, b.expiryDate.value))
  }

  lemma ExpiryLeIsTotalPreorder()
    ensures TotalPreorder(ExpiryLe)
  {
    forall a, b ensures ExpiryLe(a, b) || ExpiryLe(b, a) {
      if HasExpiry(a) && HasExpiry(b) {
        LexLeTotal(a.expiryDate.value, b.expiryDate.value);
      }
    }
    forall a, b, c | ExpiryLe(a, b) && ExpiryLe(b, c) ensures ExpiryLe(a, c) {
      if HasExpiry(c) {
        LexLeTransitive(a.expiryDate.value, b.expiryDate.value, c.expiryDate.value);
      }
    }
  }

  /** `sortIngredientsByExpiry` */
  function SortByExpiry(items: seq<Ingredient>): seq<Ingredient> {
    InsertionSort(items, ExpiryLe)
  }

  /** The sorted copy is a permutation of the input, in non-decreasing
      expiry order, with every undated item after every dated one. */
  lemma SortByExpiryCorrect(items: seq<Ingredient>)
    ensures multiset(SortByExpiry(items)) == multiset(items)
    ensures |SortByExpiry(items)| == |items|
    ensures forall i, j ::
      (0 <= i < j < |items| && HasExpiry(SortByExpiry(items)[i]) && HasExpiry(SortByExpiry(items)[j]))
      ==> LexLe(SortByExpiry(items)[i].expiryDate.value, SortByExpiry(items)[j].expiryDate.value)
    ensures forall i, j :: 0 <= i < j < |items| && !HasExpiry(SortByExpiry(items)[i]) ==>
      !HasExpiry(SortByExpiry(items)[j])
  {
    SortPermutes(items, ExpiryLe);
    assert |multiset(SortByExpiry(items))| == |multiset(items)|;
    ExpiryLeIsTotalPreorder();
    SortSorted(items, ExpiryLe);
  }

  /** Sorting by expiry keeps every ingredient and adds none: membership, and
      the count of ingredients of any kind, are those of the input. */
  lemma SortByExpiryKeepsMembers(items: seq<Ingredient>, p: Ingredient -> bool)
    ensures forall x :: x in SortByExpiry(items) <==> x in items
    ensures |Filter(SortByExpiry(items), p)| == |Filter(items, p)|
  {
    SortPermutes(items, ExpiryLe);
    forall x ensures x in SortByExpiry(items) <==> x in items {
      assert x in SortByExpiry(items) <==> x in multiset(SortByExpiry(items));
      assert x in items <==> x in multiset(items);
    }
    SortFilterCount(items, ExpiryLe, p);
  }

  /** `a.name.localeCompare(b.name) <= 0`, with code-point order standing in
      for the locale's collation. */
  predicate NameLe(a: Sale, b: Sale) {
    LexLe(a.name, b.name)
  }

  lemma NameLeIsTotalPreorder()
    ensures TotalPreorder(NameLe)
  {
    forall a, b ensures NameLe(a, b) || NameLe(b, a) {
      LexLeTotal(a.name, b.name);
    }
    forall a, b, c | NameLe(a, b) && NameLe(b, c) ensures NameLe(a, c) {
      LexLeTransitive(a.name, b.name, c.name);
    }
  }

  /** The sale list order of `listSales`. */
  function SortByName(sales: seq<Sale>): seq<Sale> {
    InsertionSort(sales, NameLe)
  }

  lemma SortByNameCorrect(sales: seq<Sale>)
    ensures multiset(SortByName(sales)) == multiset(sales)
    ensures forall i, j :: 0 <= i < j < |SortByName(sales)| ==>
      LexLe(SortByName(sales)[i].name, SortByName(sales)[j].name)
  {
    SortPermutes(sales, NameLe);
    NameLeIsTotalPreorder();
    SortSorted(sales, NameLe);
  }
}
