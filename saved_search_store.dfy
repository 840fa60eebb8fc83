/**
  The saved-search store (hooks/use-saved-searches.ts): a list of records that
  can be appended to, updated by id and filtered by id, with the distinct
  categories and the records of one category as queries.

  Loading from and writing to `localStorage` are not modelled; the clock
  readings `Date.now()` are parameters.
*/
module SavedSearchStore {
  import opened Wrappers
  import opened JsStrings

  datatype SavedSearch = SavedSearch(id: string, name: string, query: string, category: string, timestamp: nat)

  /** The fields an update may carry; `id` and `timestamp` are not among them. */
  datatype SearchUpdates = SearchUpdates(name: Option<string>, query: Option<string>, category: Option<string>)

  const DefaultCategory := "General"

  /** `{...search, ...updates, timestamp: now}`. */
  function Overlay(s: SavedSearch, u: SearchUpdates, now: nat): (r: SavedSearch)
    ensures r.id == s.id && r.timestamp == now
    ensures r.name == (if u.name.Some? then u.name.value else s.name)
    ensures r.query == (if u.query.Some? then u.query.value else s.query)
    ensures r.category == (if u.category.Some? then u.category.value else s.category)
  {
    SavedSearch(s.id, u.name.GetOr(s.name), u.query.GetOr(s.query), u.category.GetOr(s.category), now)
  }

  /** `prev.map(...)`: every record with the id is overlaid, the rest stay. */
  function UpdateById(list: seq<SavedSearch>, id: string, u: SearchUpdates, now: nat): (r: seq<SavedSearch>)
    ensures |r| == |list|
    ensures forall i :: 0 <= i < |list| ==> r[i].id == list[i].id
    ensures forall i :: 0 <= i < |list| && list[i].id != id ==> r[i] == list[i]
    ensures forall i :: 0 <= i < |list| && list[i].id == id ==> r[i] == Overlay(list[i], u, now)
  {
    seq(|list|, i requires 0 <= i < |list| => if list[i].id == id then Overlay(list[i], u, now) else list[i])
  }

  /** `prev.filter((search) => search.id !== id)`. */
  function Without(list: seq<SavedSearch>, id: string): (r: seq<SavedSearch>)
    ensures |r| <= |list|
    ensures forall s :: s in r <==> s in list && s.id != id
  {
    if list == [] then []
    else (if list[0].id != id then [list[0]] else []) + Without(list[1..], id)
  }

  /** Filtering works piece by piece, so the kept records stay in order. */
  lemma {:induction false} WithoutAppend(a: seq<SavedSearch>, b: seq<SavedSearch>, id: string)
    ensures Without(a + b, id) == Without(a, id) + Without(b, id)
  {
    if a == [] {
      assert a + b == b;
    } else {
      assert (a + b)[1..] == a[1..] + b;
      WithoutAppend(a[1..], b, id);
    }
  }

  /** Deleting an id that no record has changes nothing. */
  lemma {:induction false} WithoutAbsent(list: seq<SavedSearch>, id: string)
    requires forall i :: 0 <= i < |list| ==> list[i].id != id
    ensures Without(list, id) == list
  {
    if list != [] {
      WithoutAbsent(list[1..], id);
    }
  }

  /** Updating records and then deleting them is the same as just deleting. */
  lemma {:induction false} DeleteAfterUpdate(list: seq<SavedSearch>, id: string, u: SearchUpdates, now: nat)
    ensures Without(UpdateById(list, id, u, now), id) == Without(list, id)
  {
    if list != [] {
      var up := UpdateById(list, id, u, now);
      assert up[1..] == UpdateById(list[1..], id, u, now);
      DeleteAfterUpdate(list[1..], id, u, now);
    }
  }

  /** An update that names no record changes nothing. */
  lemma UpdateAbsent(list: seq<SavedSearch>, id: string, u: SearchUpdates, now: nat)
    requires forall i :: 0 <= i < |list| ==> list[i].id != id
    ensures UpdateById(list, id, u, now) == list
  {
  }

  /** The records whose category is in `cats`, in list order. */
  function InCategories(list: seq<SavedSearch>, cats: set<string>): (r: seq<SavedSearch>)
    ensures |r| <= |list|
    ensures forall s :: s in r <==> s in list && s.category in cats
  {
    if list == [] then []
    else (if list[0].category in cats then [list[0]] else []) + InCategories(list[1..], cats)
  }

  /** `savedSearches.filter((search) => search.category === category)`. */
  function ByCategory(list: seq<SavedSearch>, category: string): (r: seq<SavedSearch>)
    ensures forall s :: s in r <==> s in list && s.category == category
  {
    InCategories(list, {category})
  }

  lemma {:induction false} InCategoriesAppend(a: seq<SavedSearch>, b: seq<SavedSearch>, cats: set<string>)
    ensures InCategories(a + b, cats) == InCategories(a, cats) + InCategories(b, cats)
  {
    if a == [] {
      assert a + b == b;
    } else {
      assert (a + b)[1..] == a[1..] + b;
      InCategoriesAppend(a[1..], b, cats);
    }
  }

  /** Records with disjoint category sets split the records of their union. */
  lemma {:induction false} InCategoriesUnion(list: seq<SavedSearch>, a: set<string>, b: set<string>)
    requires a !! b
    ensures multiset(InCategories(list, a)) + multiset(InCategories(list, b)) == multiset(InCategories(list, a + b))
  {
    if list != [] {
      InCategoriesUnion(list[1..], a, b);
    }
  }

  /** Keeping every category a record has keeps the whole list. */
  lemma {:induction false} InCategoriesAll(list: seq<SavedSearch>, cats: set<string>)
    requires forall i :: 0 <= i < |list| ==> list[i].category in cats
    ensures InCategories(list, cats) == list
  {
    if list != [] {
      InCategoriesAll(list[1..], cats);
    }
  }

  predicate NoDuplicates(xs: seq<string>) {
    forall i, j :: 0 <= i < j < |xs| ==> xs[i] != xs[j]
  }

  /** Some record has category `c`. */
  predicate HasCategory(list: seq<SavedSearch>, c: string) {
    exists k :: 0 <= k < |list| && list[k].category == c
  }

  /** The index of the first record with category `c`. */
  function FirstIndex(list: seq<SavedSearch>, c: string): (i: nat)
    requires HasCategory(list, c)
    ensures i < |list| && list[i].category == c
    ensures forall k :: 0 <= k < i ==> list[k].category != c
  {
    if list[0].category == c then 0
    else
      var k :| 0 <= k < |list| && list[k].category == c;
      assert list[1..][k - 1] == list[k];
      1 + FirstIndex(list[1..], c)
  }

  /** `Array.from(new Set(savedSearches.map((search) => search.category)))`. */
  function Categories(list: seq<SavedSearch>): (cats: seq<string>)
    ensures NoDuplicates(cats)
    ensures forall c :: c in cats <==> HasCategory(list, c)
    ensures forall i :: 0 <= i < |cats| ==> HasCategory(list, cats[i])
  {
    if list == [] then []
    else
      var init := list[..|list| - 1];
      var prev := Categories(init);
      var c := list[|list| - 1].category;
      assert forall k :: 0 <= k < |init| ==> init[k] == list[k];
      if c in prev then prev else prev + [c]
  }

  /** The categories come in the order of their first record (the insertion
      order of a JavaScript `Set`). */
  lemma {:induction false} CategoriesInFirstOccurrenceOrder(list: seq<SavedSearch>)
    ensures forall i, j :: 0 <= i < j < |Categories(list)| ==>
              FirstIndex(list, Categories(list)[i]) < FirstIndex(list, Categories(list)[j])
  {
    if list != [] {
      var init := list[..|list| - 1];
      CategoriesInFirstOccurrenceOrder(init);
      var cats := Categories(list);
      var prev := Categories(init);
      forall i, j | 0 <= i < j < |cats| ensures FirstIndex(list, cats[i]) < FirstIndex(list, cats[j]) {
        FirstIndexOfPrefix(list, cats[i]);
        if j < |prev| {
          FirstIndexOfPrefix(list, cats[j]);
        } else {
          assert cats[j] == list[|list| - 1].category && cats[j] !in prev;
          assert FirstIndex(list, cats[j]) == |list| - 1;
        }
      }
    }
  }

  /** A category already in the list before its last record keeps its first index. */
  lemma FirstIndexOfPrefix(list: seq<SavedSearch>, c: string)
    requires list != []
    requires HasCategory(list[..|list| - 1], c)
    ensures HasCategory(list, c)
    ensures FirstIndex(list[..|list| - 1], c) == FirstIndex(list, c)
  {
    var init := list[..|list| - 1];
    var j := FirstIndex(init, c);
    assert list[j] == init[j];
    var i := FirstIndex(list, c);
    assert i <= j;
    assert init[i] == list[i];
  }

  /** The concatenated groups of the categories in `cats`. */
  function Grouped(list: seq<SavedSearch>, cats: seq<string>): seq<SavedSearch> {
    if cats == [] then [] else ByCategory(list, cats[0]) + Grouped(list, cats[1..])
  }

  lemma {:induction false} GroupedIsInCategories(list: seq<SavedSearch>, cats: seq<string>)
    requires NoDuplicates(cats)
    ensures multiset(Grouped(list, cats)) == multiset(InCategories(list, set c | c in cats))
  {
    if cats == [] {
      InCategoriesEmpty(list, set c | c in cats);
    } else {
      var rest := cats[1..];
      GroupedIsInCategories(list, rest);
      assert (set c | c in cats) == {cats[0]} + (set c | c in rest);
      InCategoriesUnion(list, {cats[0]}, set c | c in rest);
    }
  }

  lemma InCategoriesEmpty(list: seq<SavedSearch>, cats: set<string>)
    requires cats == {}
    ensures InCategories(list, cats) == []
  {
  }

  /** The groups of all categories together hold every record exactly once. */
  lemma CategoriesPartition(list: seq<SavedSearch>)
    ensures multiset(Grouped(list, Categories(list))) == multiset(list)
  {
    var cats := Categories(list);
    GroupedIsInCategories(list, cats);
    InCategoriesAll(list, set c | c in cats);
  }

  /** The store: the list the hook keeps in React state. */
  class Store {
    var searches: seq<SavedSearch>

    constructor(loaded: seq<SavedSearch>)
      ensures searches == loaded
    {
      searches := loaded;
    }

    /** `addSavedSearch`: `idTime` and `stampTime` are the two `Date.now()`
        readings; a missing category means "General". */
    method AddSavedSearch(name: string, query: string, category: Option<string>, idTime: nat, stampTime: nat)
      returns (added: SavedSearch)
      modifies this
      ensures added == SavedSearch("search_" + NatToString(idTime), name, query,
                                   category.GetOr(DefaultCategory), stampTime)
      ensures searches == old(searches) + [added]
    {
      added := SavedSearch("search_" + NatToString(idTime), name, query, category.GetOr(DefaultCategory), stampTime);
      searches := searches + [added];
    }

    /** `updateSavedSearch`. */
    method UpdateSavedSearch(id: string, updates: SearchUpdates, now: nat)
      modifies this
      ensures searches == UpdateById(old(searches), id, updates, now)
    {
      searches := UpdateById(searches, id, updates, now);
    }

    /** `deleteSavedSearch`. */
    method DeleteSavedSearch(id: string)
      modifies this
      ensures searches == Without(old(searches), id)
    {
      searches := Without(searches, id);
    }

    /** `getCategories`: each category of the list once. */
    function GetCategories(): (cats: seq<string>)
      reads this
      ensures NoDuplicates(cats)
      ensures forall c :: c in cats <==> HasCategory(searches, c)
    {
      Categories(searches)
    }

    /** `getSearchesByCategory`: the records of one category. */
    function GetSearchesByCategory(category: string): (r: seq<SavedSearch>)
      reads this
      ensures forall s :: s in r <==> s in searches && s.category == category
    {
      ByCategory(searches, category)
    }
  }

  /** A new record's category is among the categories afterwards, and the
      ones before stay, in the same order. */
  lemma AddedCategoryListed(list: seq<SavedSearch>, s: SavedSearch)
    ensures Categories(list + [s]) == (if s.category in Categories(list) then Categories(list) else Categories(list) + [s.category])
  {
    assert (list + [s])[..|list + [s]| - 1] == list;
  }
}
