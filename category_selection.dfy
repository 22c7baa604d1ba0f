/** The category list's view model
    (TrackerCreation/Categories/CategorySelectionViewModel) over the
    category store (CoreData/TrackerCategoryStore), whose rows are kept
    here in insertion order and fetched sorted by title. */
module CategorySelection {
  import opened Base
  import opened Structs
  import opened Entities
  import opened Sorting

  /** The store's sort key: the title, a missing one first like "". */
  function CategoryTitleKey(c: CategoryRef): string { c.title.GetOr("") }

  /** `TrackerCategoryStore.categories` after `performFetch`: every row,
      ordered by title. */
  function Fetched(rows: seq<CategoryRef>): (r: seq<CategoryRef>)
    ensures multiset(r) == multiset(rows)
    ensures |r| == |rows|
    ensures SortedBy(r, CategoryTitleKey)
  {
    SortByLength(rows, CategoryTitleKey);
    SortBy(rows, CategoryTitleKey)
  }

  /** Each row is its own object. */
  predicate DistinctOids(rows: seq<CategoryRef>) {
    forall i, j :: 0 <= i < j < |rows| ==> rows[i].oid != rows[j].oid
  }

  /** `context.delete(category)`: the rows other than that object. */
  function Without(rows: seq<CategoryRef>, oid: nat): (r: seq<CategoryRef>)
    ensures forall c :: c in r <==> c in rows && c.oid != oid
    ensures |r| <= |rows|
  {
    if rows == [] then []
    else if rows[0].oid == oid then Without(rows[1..], oid)
    else [rows[0]] + Without(rows[1..], oid)
  }

  /** With one row per object, deleting a present row takes away exactly
      that row. */
  lemma {:induction false} WithoutPresent(rows: seq<CategoryRef>, c: CategoryRef)
    requires DistinctOids(rows) && c in rows
    ensures multiset(Without(rows, c.oid)) == multiset(rows) - multiset{c}
    ensures |Without(rows, c.oid)| == |rows| - 1
  {
    var tail := rows[1..];
    assert rows == [rows[0]] + tail;
    assert multiset(rows) == multiset{rows[0]} + multiset(tail);
    if rows[0] == c {
      forall d | d in tail ensures d.oid != c.oid {
        var k :| 0 <= k < |tail| && tail[k] == d;
        assert rows[k + 1] == d;
      }
      WithoutAbsent(tail, c.oid);
      assert Without(rows, c.oid) == tail;
    } else {
      assert c in tail;
      assert DistinctOids(tail);
      WithoutPresent(tail, c);
      var rest := Without(tail, c.oid);
      assert Without(rows, c.oid) == [rows[0]] + rest;
      assert multiset([rows[0]] + rest) == multiset{rows[0]} + multiset(rest);
    }
  }

  lemma {:induction false} WithoutAbsent(rows: seq<CategoryRef>, oid: nat)
    requires forall c :: c in rows ==> c.oid != oid
    ensures Without(rows, oid) == rows
  {
    if rows != [] {
      WithoutAbsent(rows[1..], oid);
      assert rows == [rows[0]] + rows[1..];
    }
  }

  lemma {:induction false} WithoutDistinct(rows: seq<CategoryRef>, oid: nat)
    requires DistinctOids(rows)
    ensures DistinctOids(Without(rows, oid))
  {
    if rows != [] {
      assert DistinctOids(rows[1..]);
      WithoutDistinct(rows[1..], oid);
      var rest := Without(rows[1..], oid);
      if rows[0].oid != oid {
        forall c | c in rest ensures c.oid != rows[0].oid {
          var k :| 0 <= k < |rows[1..]| && rows[1..][k] == c;
          assert rows[k + 1] == c;
        }
        var r := [rows[0]] + rest;
        forall i, j | 0 <= i < j < |r| ensures r[i].oid != r[j].oid {
          if i == 0 {
            assert r[j] in rest;
          } else {
            assert r[i] == rest[i - 1] && r[j] == rest[j - 1];
          }
        }
      }
    }
  }

  class CategorySelectionViewModel {
    /** The store's rows, in the order they were added. */
    var storeRows: seq<CategoryRef>
    /** `categories`. */
    var categories: seq<CategoryRef>
    /** Every value `categories` has been assigned, in order: what its
        `didSet` hands to `onCategoriesChange`. */
    var notified: seq<seq<CategoryRef>>
    /** The last category passed to `onCategorySelected`. */
    var lastSelected: Option<CategoryRef>

    /** The list shows the store, and each store row is its own object. */
    ghost predicate Valid()
      reads this
    {
      categories == Fetched(storeRows) && DistinctOids(storeRows)
      && notified != [] && notified[|notified| - 1] == categories
    }

    /** `init(categoryStore:)`, which fetches the store's categories. */
    constructor (rows: seq<CategoryRef>)
      requires DistinctOids(rows)
      ensures storeRows == rows && categories == Fetched(rows)
      ensures notified == [categories] && lastSelected == None
      ensures Valid()
    {
      storeRows := rows;
      categories := Fetched(rows);
      notified := [Fetched(rows)];
      lastSelected := None;
    }

    /** `selectCategory(at:)`: an index past the end does nothing; otherwise
        the category at `index` is handed on and the list is left alone. A
        negative index is not guarded against in the app. */
    method SelectCategory(index: int)
      requires index >= 0
      modifies this`lastSelected
      ensures index >= |categories| ==> lastSelected == old(lastSelected)
      ensures index < |categories| ==> lastSelected == Some(categories[index])
    {
      if index >= |categories| {
        return;
      }
      var selectedCategory := categories[index];
      lastSelected := Some(selectedCategory);
    }

    /** `addCategory`: the store gains one row with the given title (a new
        object, `freshOid`), and the list is refreshed from the store. */
    method AddCategory(category: TrackerCategory, freshOid: nat)
      requires Valid()
      requires forall c :: c in storeRows ==> c.oid != freshOid
      modifies this`storeRows, this`categories, this`notified
      ensures storeRows == old(storeRows) + [CategoryRef(freshOid, Some(category.title))]
      ensures categories == Fetched(storeRows)
      ensures notified == old(notified) + [categories]
      ensures Valid()
    {
      var row := CategoryRef(freshOid, Some(category.title));
      storeRows := storeRows + [row];
      forall i, j | 0 <= i < j < |storeRows| ensures storeRows[i].oid != storeRows[j].oid {
        if j == |storeRows| - 1 {
          assert storeRows[i] in old(storeRows);
        } else {
          assert storeRows[i] == old(storeRows)[i] && storeRows[j] == old(storeRows)[j];
        }
      }
      categories := Fetched(storeRows);
      notified := notified + [categories];
    }

    /** `deleteCategory(at:)`: an index past the end does nothing; otherwise
        the category at `index` is removed from the store and the list is
        refreshed from it. */
    method DeleteCategory(index: int)
      requires index >= 0
      requires Valid()
      modifies this`storeRows, this`categories, this`notified
      ensures index >= |old(categories)| ==>
                storeRows == old(storeRows) && categories == old(categories) && notified == old(notified)
      ensures index < |old(categories)| ==>
                && storeRows == Without(old(storeRows), old(categories)[index].oid)
                && categories == Fetched(storeRows)
                && notified == old(notified) + [categories]
      ensures Valid()
    {
      if index >= |categories| {
        return;
      }
      var categoryToDelete := categories[index];
      storeRows := Without(storeRows, categoryToDelete.oid);
      WithoutDistinct(old(storeRows), categoryToDelete.oid);
      categories := Fetched(storeRows);
      notified := notified + [categories];
    }
  }

  /** Deleting an in-range entry shortens the list by one and takes away
      exactly that category. */
  lemma DeleteRemovesExactlyOne(rows: seq<CategoryRef>, index: nat)
    requires DistinctOids(rows) && index < |Fetched(rows)|
    ensures var c := Fetched(rows)[index];
            && multiset(Fetched(Without(rows, c.oid))) == multiset(Fetched(rows)) - multiset{c}
            && |Fetched(Without(rows, c.oid))| == |Fetched(rows)| - 1
            && c !in Fetched(Without(rows, c.oid))
  {
    var c := Fetched(rows)[index];
    assert c in multiset(Fetched(rows));
    assert c in rows;
    WithoutPresent(rows, c);
  }

  /** After adding, the new category is listed and the list is one longer. */
  lemma AddListsNewCategory(rows: seq<CategoryRef>, title: string, freshOid: nat)
    ensures CategoryRef(freshOid, Some(title)) in Fetched(rows + [CategoryRef(freshOid, Some(title))])
    ensures |Fetched(rows + [CategoryRef(freshOid, Some(title))])| == |rows| + 1
  {
    var added := rows + [CategoryRef(freshOid, Some(title))];
    assert CategoryRef(freshOid, Some(title)) in multiset(added);
  }
}
