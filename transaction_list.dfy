/** The transaction list: the newest-first ordering it displays, the filter it applies
    after a delete, the category lookup for each row, and the count, empty-state and
    "Load More" conditions. */
module TransactionList {
  import opened Dates
  import opened Wrappers
  import opened Model
  import opened Text
  import opened Lists
  import TransactionStore
  import TransactionModal

  // ---------------------------------------------------------------------------
  // Newest first

  /** Dates never increase along the list. */
  predicate NewestFirst(s: seq<Transaction>) {
    forall i, j | 0 <= i < j < |s| :: DayNumber(s[j].date) <= DayNumber(s[i].date)
  }

  /** Putting an entry at least as new as every other in front keeps the list newest first. */
  lemma ConsNewestFirst(x: Transaction, s: seq<Transaction>)
    requires NewestFirst(s)
    requires forall y | y in s :: DayNumber(y.date) <= DayNumber(x.date)
    ensures NewestFirst([x] + s)
  {
    var r := [x] + s;
    forall i, j | 0 <= i < j < |r| ensures DayNumber(r[j].date) <= DayNumber(r[i].date) {
      assert r[j] == s[j - 1];
      if i > 0 {
        assert r[i] == s[i - 1];
      }
    }
  }

  /** The tail of a newest-first list is newest first and no newer than its head. */
  lemma TailNewestFirst(s: seq<Transaction>)
    requires NewestFirst(s) && |s| > 0
    ensures NewestFirst(s[1..])
    ensures forall x | x in s[1..] :: DayNumber(x.date) <= DayNumber(s[0].date)
    ensures s == [s[0]] + s[1..]
  {
    var tail := s[1..];
    forall i, j | 0 <= i < j < |tail| ensures DayNumber(tail[j].date) <= DayNumber(tail[i].date) {
      assert tail[i] == s[i + 1] && tail[j] == s[j + 1];
    }
    forall x | x in tail ensures DayNumber(x.date) <= DayNumber(s[0].date) {
      var k :| 0 <= k < |tail| && tail[k] == x;
      assert x == s[k + 1];
    }
  }

  /** Places `t` in a newest-first list, ahead of the entries on or before its date. */
  function Insert(t: Transaction, sorted: seq<Transaction>): (r: seq<Transaction>)
    requires NewestFirst(sorted)
    ensures NewestFirst(r)
    ensures multiset(r) == multiset(sorted) + multiset{t}
    ensures forall x | x in r :: x == t || x in sorted
  {
    if |sorted| == 0 then [t]
    else if DayNumber(sorted[0].date) <= DayNumber(t.date) then
      ConsNewestFirst(t, sorted);
      [t] + sorted
    else
      var head, tail := sorted[0], sorted[1..];
      TailNewestFirst(sorted);
      var rest := Insert(t, tail);
      ConsNewestFirst(head, rest);
      [head] + rest
  }

  /** `[...transactions].sort((a, b) => new Date(b.date) - new Date(a.date))`: a
      newest-first arrangement of the same entries; the input list itself is a value and
      is left as it was. */
  function SortNewestFirst(ts: seq<Transaction>): (r: seq<Transaction>)
    ensures NewestFirst(r)
    ensures multiset(r) == multiset(ts)
    ensures |r| == |ts|
  {
    if |ts| == 0 then []
    else
      assert ts == [ts[0]] + ts[1..];
      Insert(ts[0], SortNewestFirst(ts[1..]))
  }

  /** A list that is already newest first is displayed as it is. */
  lemma {:induction false} SortKeepsSorted(ts: seq<Transaction>)
    requires NewestFirst(ts)
    ensures SortNewestFirst(ts) == ts
    decreases |ts|
  {
    if |ts| > 0 {
      assert NewestFirst(ts[1..]) by {
        forall i, j | 0 <= i < j < |ts| - 1 ensures DayNumber(ts[1..][j].date) <= DayNumber(ts[1..][i].date) {
          assert ts[1..][i] == ts[i + 1] && ts[1..][j] == ts[j + 1];
        }
      }
      SortKeepsSorted(ts[1..]);
      assert ts == [ts[0]] + ts[1..];
    }
  }

  // ---------------------------------------------------------------------------
  // Delete

  /** `prev.filter(t => t.Id !== id)`: the list after a successful delete. */
  function DeleteFromList(ts: seq<Transaction>, id: int): (r: seq<Transaction>)
    ensures forall t | t in r :: t.Id != id && t in ts
    ensures forall t | t in ts && t.Id != id :: t in r
  {
    Filter(ts, (t: Transaction) => t.Id != id)
  }

  /** With distinct Ids the list's filter and the store's splice agree: the screen shows
      what the store now holds. */
  lemma DeleteMatchesStore(ts: seq<Transaction>, id: int)
    requires TransactionStore.DistinctIds(ts)
    requires TransactionStore.FindIndex(ts, id).Some?
    ensures var i := TransactionStore.FindIndex(ts, id).value;
      DeleteFromList(ts, id) == ts[..i] + ts[i + 1..]
  {
    var i := TransactionStore.FindIndex(ts, id).value;
    var keep := (t: Transaction) => t.Id != id;
    var before, after := ts[..i], ts[i + 1..];
    assert ts == before + ([ts[i]] + after);
    FilterConcat(before, [ts[i]] + after, keep);
    FilterConcat([ts[i]], after, keep);
    forall j | 0 <= j < |before| ensures keep(before[j]) {
      assert before[j] == ts[j];
    }
    FilterKeepsAll(before, keep);
    forall j | 0 <= j < |after| ensures keep(after[j]) {
      assert after[j] == ts[i + 1 + j];
    }
    FilterKeepsAll(after, keep);
  }

  // ---------------------------------------------------------------------------
  // Category lookup

  /** A category is the one for a transaction when the names agree ignoring case and
      the types are equal. */
  predicate CategoryMatches(c: Category, t: Transaction) {
    ToLower(c.name) == ToLower(t.category) && c.kind == t.kind
  }

  /** `getCategoryForTransaction`: the first matching category, or none. */
  function FindCategory(categories: seq<Category>, t: Transaction): (r: Option<Category>)
    ensures r.Some? ==> r.value in categories && CategoryMatches(r.value, t)
    ensures r.None? <==> forall c | c in categories :: !CategoryMatches(c, t)
    ensures r.Some? ==> exists i | 0 <= i < |categories| ::
      (categories[i] == r.value && forall j | 0 <= j < i :: !CategoryMatches(categories[j], t))
  {
    if |categories| == 0 then None
    else if CategoryMatches(categories[0], t) then Some(categories[0])
    else
      var rest := FindCategory(categories[1..], t);
      assert forall c | c in categories :: c == categories[0] || c in categories[1..];
      if rest.Some? then
        assert exists i | 0 <= i < |categories| ::
          (categories[i] == rest.value && forall j | 0 <= j < i :: !CategoryMatches(categories[j], t)) by {
          var k :| 0 <= k < |categories[1..]| && categories[1..][k] == rest.value
            && forall j | 0 <= j < k :: !CategoryMatches(categories[1..][j], t);
          assert categories[k + 1] == rest.value;
          forall j | 0 <= j < k + 1 ensures !CategoryMatches(categories[j], t) {
            if j > 0 {
              assert categories[j] == categories[1..][j - 1];
            }
          }
        }
        rest
      else rest
  }

  /** The lookup ignores the case of the stored category name. */
  lemma FindCategoryIgnoresCase(categories: seq<Category>, t: Transaction, name: string)
    requires ToLower(name) == ToLower(t.category)
    ensures FindCategory(categories, t.(category := name)) == FindCategory(categories, t)
  {
    FindSameMatches(categories, t, t.(category := name));
  }

  lemma {:induction false} FindSameMatches(categories: seq<Category>, t: Transaction, u: Transaction)
    requires ToLower(t.category) == ToLower(u.category) && t.kind == u.kind
    ensures FindCategory(categories, t) == FindCategory(categories, u)
    decreases |categories|
  {
    if |categories| > 0 {
      FindSameMatches(categories[1..], t, u);
    }
  }

  /** A transaction saved from the form with one of the offered category values finds
      a category again in the list. */
  lemma OfferedCategoryIsFound(categories: seq<Category>, o: TransactionModal.SelectOption, t: Transaction)
    requires o in TransactionModal.FilteredCategories(categories, KindName(t.kind))
    requires t.category == o.value
    ensures FindCategory(categories, t).Some?
  {
    var c :| c in categories && KindName(c.kind) == KindName(t.kind) && o == TransactionModal.OptionOf(c);
    ToLowerIdempotent(c.name);
    assert c.kind == t.kind;
    assert CategoryMatches(c, t);
  }

  // ---------------------------------------------------------------------------
  // Counts

  /** The plural ending of "N transaction(s)". */
  function CountSuffix(count: nat): (r: string)
    ensures r == "s" <==> count != 1
    ensures r == "" <==> count == 1
  {
    if count != 1 then "s" else ""
  }

  /** The empty state replaces the list when there are no transactions. */
  predicate ShowsEmptyState(ts: seq<Transaction>) {
    |ts| == 0
  }

  /** "Load More Transactions" appears with more than five transactions. */
  predicate ShowsLoadMore(ts: seq<Transaction>) {
    |ts| > 5
  }

  /** The empty state and "Load More" never appear together, and a list with exactly
      one entry is labelled in the singular. */
  lemma CountConditions(ts: seq<Transaction>)
    ensures !(ShowsEmptyState(ts) && ShowsLoadMore(ts))
    ensures ShowsEmptyState(ts) ==> CountSuffix(|ts|) == "s"
    ensures ShowsLoadMore(ts) ==> CountSuffix(|ts|) == "s"
  {
  }
}
