/**
 * The search filters of the home page (app/page.tsx): a pure function of the raw
 * query and a collection. A blank query returns the collection unchanged;
 * otherwise the query is lower-cased and trimmed and a record is kept when the
 * query occurs in one of a fixed set of its lower-cased fields.
 */
module Search {
  import opened Wrappers
  import opened Text
  import opened IncomeData

  /** `xs.filter(keep)`: the elements that satisfy `keep`, in their original order. */
  function Filter<T(!new)>(xs: seq<T>, keep: T -> bool): (r: seq<T>)
    ensures |r| <= |xs|
    ensures forall x :: x in r <==> x in xs && keep(x)
    ensures forall i :: 0 <= i < |r| ==> keep(r[i])
  {
    if xs == [] then []
    else if keep(xs[0]) then [xs[0]] + Filter(xs[1..], keep)
    else Filter(xs[1..], keep)
  }

  /** `filter` keeps every copy of a passing element and no copy of a failing one. */
  lemma {:induction false} FilterCounts<T(!new)>(xs: seq<T>, keep: T -> bool)
    ensures forall x :: multiset(Filter(xs, keep))[x] == if keep(x) then multiset(xs)[x] else 0
  {
    if xs != [] {
      FilterCounts(xs[1..], keep);
      assert xs == [xs[0]] + xs[1..];
    }
  }

  /** `a` is `b` with some elements left out: same relative order, nothing inserted or repeated. */
  ghost predicate IsSubsequence<T>(a: seq<T>, b: seq<T>)
  {
    a == [] || (b != [] && ((a[0] == b[0] && IsSubsequence(a[1..], b[1..])) || IsSubsequence(a, b[1..])))
  }

  /** Filtering keeps relative order and never duplicates or inserts. */
  lemma {:induction false} FilterIsSubsequence<T(!new)>(xs: seq<T>, keep: T -> bool)
    ensures IsSubsequence(Filter(xs, keep), xs)
    ensures multiset(Filter(xs, keep)) <= multiset(xs)
  {
    if xs != [] {
      FilterIsSubsequence(xs[1..], keep);
      assert xs == [xs[0]] + xs[1..];
      var r := Filter(xs, keep);
      if keep(xs[0]) {
        assert r[1..] == Filter(xs[1..], keep);
      } else {
        if r != [] { SubsequenceDropFirst(r, xs); }
      }
    }
  }

  lemma SubsequenceDropFirst<T>(a: seq<T>, b: seq<T>)
    requires b != [] && IsSubsequence(a, b[1..])
    ensures IsSubsequence(a, b)
  {
  }

  /** Filtering with a test every element passes returns the sequence itself. */
  lemma {:induction false} FilterKeepsAll<T(!new)>(xs: seq<T>, keep: T -> bool)
    requires forall x :: x in xs ==> keep(x)
    ensures Filter(xs, keep) == xs
  {
    if xs != [] {
      assert forall x :: x in xs[1..] ==> x in xs;
      FilterKeepsAll(xs[1..], keep);
      assert [xs[0]] + xs[1..] == xs;
    }
  }

  /** Filtering a concatenation filters each part. */
  lemma {:induction false} FilterAppend<T(!new)>(a: seq<T>, b: seq<T>, keep: T -> bool)
    ensures Filter(a + b, keep) == Filter(a, keep) + Filter(b, keep)
  {
    if a != [] {
      assert (a + b)[1..] == a[1..] + b;
      FilterAppend(a[1..], b, keep);
    } else {
      assert a + b == b;
    }
  }

  /** Filtering twice with the same test is filtering once. */
  lemma FilterIdempotent<T(!new)>(xs: seq<T>, keep: T -> bool)
    ensures Filter(Filter(xs, keep), keep) == Filter(xs, keep)
  {
    FilterKeepsAll(Filter(xs, keep), keep);
  }

  /** Filtering with two tests that agree on every element gives the same result. */
  lemma {:induction false} FilterExtensional<T(!new)>(xs: seq<T>, keep1: T -> bool, keep2: T -> bool)
    requires forall x :: x in xs ==> keep1(x) == keep2(x)
    ensures Filter(xs, keep1) == Filter(xs, keep2)
  {
    if xs != [] {
      assert forall x :: x in xs[1..] ==> x in xs;
      FilterExtensional(xs[1..], keep1, keep2);
    }
  }

  /** `field && field.toLowerCase().includes(q)` for an optional string field (`""` is falsy). */
  predicate OptionalMatches(field: Option<string>, q: string)
  {
    Truthy(field) && MatchesLower(field.value, q)
  }

  /** `examples.some((example) => example.toLowerCase().includes(q))` */
  predicate SomeExampleMatches(examples: seq<string>, q: string)
  {
    examples != [] && (MatchesLower(examples[0], q) || SomeExampleMatches(examples[1..], q))
  }

  lemma {:induction false} SomeExampleMatchesIff(examples: seq<string>, q: string)
    ensures SomeExampleMatches(examples, q) <==> exists k :: 0 <= k < |examples| && MatchesLower(examples[k], q)
  {
    if examples != [] {
      SomeExampleMatchesIff(examples[1..], q);
      if !MatchesLower(examples[0], q) && exists k :: 0 <= k < |examples| && MatchesLower(examples[k], q) {
        var k :| 0 <= k < |examples| && MatchesLower(examples[k], q);
        assert examples[1..][k - 1] == examples[k];
      }
    }
  }

  /** The keep test of the income filter, for a query already lower-cased and trimmed. */
  predicate IncomeMatches(item: IncomeCategory, q: string)
    ensures q == [] ==> IncomeMatches(item, q)
    ensures MatchesLower(item.code, q) ==> IncomeMatches(item, q)
    ensures item.description.None? && item.examples.None? && item.notes.None? ==>
      (IncomeMatches(item, q) <==> MatchesLower(item.name, q) || MatchesLower(item.code, q))
  {
    MatchesLower(item.name, q)
    || MatchesLower(item.code, q)
    || OptionalMatches(item.description, q)
    || (item.examples.Some? && SomeExampleMatches(item.examples.value, q))
    || OptionalMatches(item.notes, q)
  }

  /** The keep test of the occupation filter: name, code and category, never description. */
  predicate OccupationMatches(item: OccupationCategory, q: string)
    ensures q == [] ==> OccupationMatches(item, q)
    ensures MatchesLower(item.code, q) ==> OccupationMatches(item, q)
    ensures item.category.None? ==> (OccupationMatches(item, q) <==> MatchesLower(item.name, q) || MatchesLower(item.code, q))
  {
    MatchesLower(item.name, q)
    || MatchesLower(item.code, q)
    || OptionalMatches(item.category, q)
  }

  /** `filteredIncomeCategories`, over any collection of income records. */
  function FilterIncome(searchQuery: string, items: seq<IncomeCategory>): (r: seq<IncomeCategory>)
    ensures |r| <= |items|
    ensures Trim(searchQuery) == [] ==> r == items
    ensures forall x :: x in r ==> x in items
  {
    if Trim(searchQuery) == [] then items
    else
      var q := Normalize(searchQuery);
      Filter(items, item => IncomeMatches(item, q))
  }

  /** `filteredOccupationCategories`, over any collection of occupation records. */
  function FilterOccupation(searchQuery: string, items: seq<OccupationCategory>): (r: seq<OccupationCategory>)
    ensures |r| <= |items|
    ensures Trim(searchQuery) == [] ==> r == items
    ensures forall x :: x in r ==> x in items
  {
    if Trim(searchQuery) == [] then items
    else
      var q := Normalize(searchQuery);
      Filter(items, item => OccupationMatches(item, q))
  }

  lemma {:induction false} SubsequenceReflexive<T>(xs: seq<T>)
    ensures IsSubsequence(xs, xs)
  {
    if xs != [] { SubsequenceReflexive(xs[1..]); }
  }

  /**
   * The income filter: a blank query returns the collection itself; any result is a
   * subsequence of the collection, with no record more often than in the collection;
   * a record is in the result exactly when it is in the collection and, for a
   * non-blank query, matches the normalised query; and a kept record occurs as often
   * as in the collection, a dropped one not at all.
   */
  lemma FilterIncomeSpec(searchQuery: string, items: seq<IncomeCategory>)
    ensures Trim(searchQuery) == [] ==> FilterIncome(searchQuery, items) == items
    ensures IsSubsequence(FilterIncome(searchQuery, items), items)
    ensures multiset(FilterIncome(searchQuery, items)) <= multiset(items)
    ensures forall x :: x in FilterIncome(searchQuery, items) <==>
      x in items && (Trim(searchQuery) == [] || IncomeMatches(x, Normalize(searchQuery)))
    ensures forall x ::
      (multiset(FilterIncome(searchQuery, items))[x] ==
       if Trim(searchQuery) == [] || IncomeMatches(x, Normalize(searchQuery)) then multiset(items)[x] else 0)
  {
    if Trim(searchQuery) == [] {
      SubsequenceReflexive(items);
    } else {
      var q := Normalize(searchQuery);
      FilterIsSubsequence(items, item => IncomeMatches(item, q));
      FilterCounts(items, item => IncomeMatches(item, q));
    }
  }

  /** The income filter returns a subsequence of its collection, for any query. */
  lemma FilterIncomeIsSubsequence(searchQuery: string, items: seq<IncomeCategory>)
    ensures IsSubsequence(FilterIncome(searchQuery, items), items)
  {
    if Trim(searchQuery) == [] {
      SubsequenceReflexive(items);
    } else {
      var q := Normalize(searchQuery);
      FilterIsSubsequence(items, item => IncomeMatches(item, q));
    }
  }

  /** The occupation filter returns a subsequence of its collection, for any query. */
  lemma FilterOccupationIsSubsequence(searchQuery: string, items: seq<OccupationCategory>)
    ensures IsSubsequence(FilterOccupation(searchQuery, items), items)
  {
    if Trim(searchQuery) == [] {
      SubsequenceReflexive(items);
    } else {
      var q := Normalize(searchQuery);
      FilterIsSubsequence(items, item => OccupationMatches(item, q));
    }
  }

  /** The occupation filter, with the same promises as `FilterIncomeSpec`. */
  lemma FilterOccupationSpec(searchQuery: string, items: seq<OccupationCategory>)
    ensures Trim(searchQuery) == [] ==> FilterOccupation(searchQuery, items) == items
    ensures IsSubsequence(FilterOccupation(searchQuery, items), items)
    ensures multiset(FilterOccupation(searchQuery, items)) <= multiset(items)
    ensures forall x :: x in FilterOccupation(searchQuery, items) <==>
      x in items && (Trim(searchQuery) == [] || OccupationMatches(x, Normalize(searchQuery)))
    ensures forall x ::
      (multiset(FilterOccupation(searchQuery, items))[x] ==
       if Trim(searchQuery) == [] || OccupationMatches(x, Normalize(searchQuery)) then multiset(items)[x] else 0)
  {
    if Trim(searchQuery) == [] {
      SubsequenceReflexive(items);
    } else {
      var q := Normalize(searchQuery);
      FilterIsSubsequence(items, item => OccupationMatches(item, q));
      FilterCounts(items, item => OccupationMatches(item, q));
    }
  }

  /** An absent optional field contributes no text to search. */
  function OptionalText(field: Option<string>): (r: seq<string>)
    ensures field.None? ==> r == []
    ensures field.Some? ==> r == [field.value]
  {
    match field
    case None => []
    case Some(s) => [s]
  }

  /** The texts the income filter searches: name, code, description, every example, notes. */
  function IncomeSearchTexts(item: IncomeCategory): seq<string>
  {
    [item.name, item.code] + OptionalText(item.description)
    + (if item.examples.Some? then item.examples.value else []) + OptionalText(item.notes)
  }

  /** The texts the occupation filter searches: name, code and category. */
  function OccupationSearchTexts(item: OccupationCategory): seq<string>
  {
    [item.name, item.code] + OptionalText(item.category)
  }

  lemma EmptyFieldNeverMatches(q: string)
    requires q != []
    ensures !MatchesLower("", q)
  {
  }

  /**
   * For a non-empty normalised query, an income record is kept exactly when the
   * query occurs in one of its lower-cased search texts; absent fields never match.
   */
  lemma IncomeMatchesIff(item: IncomeCategory, q: string)
    requires q != []
    ensures IncomeMatches(item, q) <==> exists t :: t in IncomeSearchTexts(item) && MatchesLower(t, q)
  {
    EmptyFieldNeverMatches(q);
    var texts := IncomeSearchTexts(item);
    var examples := if item.examples.Some? then item.examples.value else [];
    SomeExampleMatchesIff(examples, q);
    assert texts == [item.name, item.code] + OptionalText(item.description) + examples + OptionalText(item.notes);
    if exists t :: t in texts && MatchesLower(t, q) {
      var t :| t in texts && MatchesLower(t, q);
      if t in examples {
        var k :| 0 <= k < |examples| && examples[k] == t;
      }
    }
  }

  /** For a non-empty normalised query, an occupation record is kept exactly when the query occurs in its name, code or category. */
  lemma OccupationMatchesIff(item: OccupationCategory, q: string)
    requires q != []
    ensures OccupationMatches(item, q) <==> exists t :: t in OccupationSearchTexts(item) && MatchesLower(t, q)
  {
    EmptyFieldNeverMatches(q);
  }

  /** The occupation filter never consults `description`: changing it changes no result. */
  lemma OccupationIgnoresDescription(searchQuery: string, items: seq<OccupationCategory>, item: OccupationCategory, d: Option<string>)
    ensures OccupationMatches(item.(description := d), Normalize(searchQuery)) == OccupationMatches(item, Normalize(searchQuery))
    ensures item in items && item.(description := d) !in items ==>
      (item in FilterOccupation(searchQuery, items) <==> item.(description := d) in FilterOccupation(searchQuery, items + [item.(description := d)]))
  {
    var other := item.(description := d);
    FilterOccupationSpec(searchQuery, items);
    FilterOccupationSpec(searchQuery, items + [other]);
  }

  /** Queries with the same normalisation select the same income records. */
  lemma FilterIncomeByNormalization(q1: string, q2: string, items: seq<IncomeCategory>)
    requires Normalize(q1) == Normalize(q2)
    ensures FilterIncome(q1, items) == FilterIncome(q2, items)
  {
    NormalizeEmptyIffBlank(q1);
    NormalizeEmptyIffBlank(q2);
  }

  lemma FilterOccupationByNormalization(q1: string, q2: string, items: seq<OccupationCategory>)
    requires Normalize(q1) == Normalize(q2)
    ensures FilterOccupation(q1, items) == FilterOccupation(q2, items)
  {
    NormalizeEmptyIffBlank(q1);
    NormalizeEmptyIffBlank(q2);
  }

  /**
   * Matching ignores case and surrounding white space: a query, its lower-cased form
   * and its trimmed form select the same records from either collection.
   */
  lemma FiltersInsensitive(searchQuery: string, incomes: seq<IncomeCategory>, occupations: seq<OccupationCategory>)
    ensures FilterIncome(Lower(searchQuery), incomes) == FilterIncome(searchQuery, incomes)
    ensures FilterIncome(Trim(searchQuery), incomes) == FilterIncome(searchQuery, incomes)
    ensures FilterOccupation(Lower(searchQuery), occupations) == FilterOccupation(searchQuery, occupations)
    ensures FilterOccupation(Trim(searchQuery), occupations) == FilterOccupation(searchQuery, occupations)
  {
    NormalizeInsensitive(searchQuery);
    FilterIncomeByNormalization(Lower(searchQuery), searchQuery, incomes);
    FilterIncomeByNormalization(Trim(searchQuery), searchQuery, incomes);
    FilterOccupationByNormalization(Lower(searchQuery), searchQuery, occupations);
    FilterOccupationByNormalization(Trim(searchQuery), searchQuery, occupations);
  }

  /** Re-running a filter on its own result changes nothing. */
  lemma FiltersIdempotent(searchQuery: string, incomes: seq<IncomeCategory>, occupations: seq<OccupationCategory>)
    ensures FilterIncome(searchQuery, FilterIncome(searchQuery, incomes)) == FilterIncome(searchQuery, incomes)
    ensures FilterOccupation(searchQuery, FilterOccupation(searchQuery, occupations)) == FilterOccupation(searchQuery, occupations)
  {
    var q := Normalize(searchQuery);
    FilterIdempotent(incomes, item => IncomeMatches(item, q));
    FilterIdempotent(occupations, item => OccupationMatches(item, q));
  }

  /** Searching for an income record's own code keeps that record. */
  lemma FilterIncomeFindsOwnCode(item: IncomeCategory, items: seq<IncomeCategory>)
    requires item in items
    ensures item in FilterIncome(item.code, items)
  {
    MatchesOwnNormalization(item.code);
    assert IncomeMatches(item, Normalize(item.code));
    FilterIncomeSpec(item.code, items);
  }

  /** Searching for an occupation record's own code keeps that record. */
  lemma FilterOccupationFindsOwnCode(item: OccupationCategory, items: seq<OccupationCategory>)
    requires item in items
    ensures item in FilterOccupation(item.code, items)
  {
    MatchesOwnNormalization(item.code);
    assert OccupationMatches(item, Normalize(item.code));
    FilterOccupationSpec(item.code, items);
  }

  /** `x` occurs in `s` at a position before an occurrence of `y`. */
  predicate Precedes<T(==)>(s: seq<T>, x: T, y: T)
  {
    exists i, j :: 0 <= i < j < |s| && s[i] == x && s[j] == y
  }

  /** A value kept from the first part of a sequence comes before one kept from the second. */
  lemma InOrder<T>(a: seq<T>, b: seq<T>, x: T, y: T)
    requires x in a && y in b
    ensures Precedes(a + b, x, y)
  {
    var i :| 0 <= i < |a| && a[i] == x;
    var j :| 0 <= j < |b| && b[j] == y;
    assert (a + b)[i] == x && (a + b)[|a| + j] == y;
  }

  /** Filtering a concatenation filters each part. */
  lemma FilterIncomeAppend(searchQuery: string, a: seq<IncomeCategory>, b: seq<IncomeCategory>)
    ensures FilterIncome(searchQuery, a + b) == FilterIncome(searchQuery, a) + FilterIncome(searchQuery, b)
  {
    var q := Normalize(searchQuery);
    FilterAppend(a, b, item => IncomeMatches(item, q));
  }

  /**
   * The income filter keeps the order of the collection: a record kept from a prefix
   * comes before a record kept from a second collection appended to it.
   */
  lemma FilterIncomeKeepsOrder(searchQuery: string, a: seq<IncomeCategory>, b: seq<IncomeCategory>, x: IncomeCategory, y: IncomeCategory)
    requires x in FilterIncome(searchQuery, a)
    requires y in FilterIncome(searchQuery, b)
    ensures Precedes(FilterIncome(searchQuery, a + b), x, y)
  {
    FilterIncomeAppend(searchQuery, a, b);
    InOrder(FilterIncome(searchQuery, a), FilterIncome(searchQuery, b), x, y);
  }

  /** The same, for the two parts of one collection split at position `k`. */
  lemma FilterIncomeKeepsOrderAt(searchQuery: string, items: seq<IncomeCategory>, k: int, x: IncomeCategory, y: IncomeCategory)
    requires 0 <= k <= |items|
    requires x in FilterIncome(searchQuery, items[..k])
    requires y in FilterIncome(searchQuery, items[k..])
    ensures Precedes(FilterIncome(searchQuery, items), x, y)
  {
    FilterIncomeSplit(searchQuery, items, k);
    InOrder(FilterIncome(searchQuery, items[..k]), FilterIncome(searchQuery, items[k..]), x, y);
  }

  /** Filtering a collection is filtering its two parts on either side of any position. */
  lemma FilterIncomeSplit(searchQuery: string, items: seq<IncomeCategory>, k: int)
    requires 0 <= k <= |items|
    ensures FilterIncome(searchQuery, items) == FilterIncome(searchQuery, items[..k]) + FilterIncome(searchQuery, items[k..])
  {
    var a, b := items[..k], items[k..];
    assert items == a + b;
    FilterIncomeAppend(searchQuery, a, b);
  }
}
