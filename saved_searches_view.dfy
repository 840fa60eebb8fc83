/**
  The saved-searches panel (components/saved-searches.tsx): the records are
  grouped by category in a dictionary, the categories are sorted, and an inline
  editor changes a record's name and category.
*/
module SavedSearchesView {
  import opened Wrappers
  import opened SavedSearchStore

  // ------------------------------------------------------------ the sort

  /** The default order of `Array.prototype.sort` on strings: lexicographic
      by character. */
  predicate LexLess(a: string, b: string) {
    if b == [] then false
    else if a == [] then true
    else if a[0] != b[0] then a[0] < b[0]
    else LexLess(a[1..], b[1..])
  }

  lemma {:induction false} LexLessIrreflexive(a: string)
    ensures !LexLess(a, a)
  {
    if a != [] {
      LexLessIrreflexive(a[1..]);
    }
  }

  lemma {:induction false} LexLessTransitive(a: string, b: string, c: string)
    requires LexLess(a, b) && LexLess(b, c)
    ensures LexLess(a, c)
  {
    if a != [] && a[0] == b[0] && b[0] == c[0] {
      LexLessTransitive(a[1..], b[1..], c[1..]);
    }
  }

  lemma {:induction false} LexLessTotal(a: string, b: string)
    requires a != b
    ensures LexLess(a, b) || LexLess(b, a)
  {
    if a != [] && b != [] && a[0] == b[0] {
      assert a == [a[0]] + a[1..] && b == [b[0]] + b[1..];
      LexLessTotal(a[1..], b[1..]);
    }
  }

  predicate StrictlySorted(xs: seq<string>) {
    forall i, j :: 0 <= i < j < |xs| ==> LexLess(xs[i], xs[j])
  }

  /** Puts `x` into its place in a sorted sequence that lacks it. */
  function Insert(x: string, xs: seq<string>): (r: seq<string>)
    requires StrictlySorted(xs) && x !in xs
    ensures StrictlySorted(r) && multiset(r) == multiset(xs) + multiset{x}
  {
    if xs == [] then [x]
    else if LexLess(x, xs[0]) then
      forall j | 0 < j < |xs| ensures LexLess(x, xs[j]) {
        LexLessTransitive(x, xs[0], xs[j]);
      }
      [x] + xs
    else
      LexLessTotal(x, xs[0]);
      var rest := Insert(x, xs[1..]);
      assert xs == [xs[0]] + xs[1..];
      HeadBelowInserted(xs[0], x, xs[1..], rest);
      [xs[0]] + rest
  }

  lemma HeadBelowInserted(h: string, x: string, tail: seq<string>, rest: seq<string>)
    requires StrictlySorted([h] + tail) && LexLess(h, x)
    requires StrictlySorted(rest) && multiset(rest) == multiset(tail) + multiset{x}
    ensures StrictlySorted([h] + rest)
  {
    forall j | 0 <= j < |rest| ensures LexLess(h, rest[j]) {
      assert rest[j] in multiset(rest);
      if rest[j] != x {
        assert rest[j] in multiset(tail);
        var k :| 0 <= k < |tail| && tail[k] == rest[j];
        assert ([h] + tail)[0] == h && ([h] + tail)[k + 1] == tail[k];
      }
    }
  }

  /** `.sort()` of distinct strings: ascending, with the same elements. */
  function SortStrings(xs: seq<string>): (r: seq<string>)
    requires NoDuplicates(xs)
    ensures StrictlySorted(r) && multiset(r) == multiset(xs)
  {
    if xs == [] then []
    else
      var init := xs[..|xs| - 1];
      var last := xs[|xs| - 1];
      assert xs == init + [last];
      var sorted := SortStrings(init);
      assert last !in multiset(init);
      Insert(last, sorted)
  }

  /** A sorted sequence holds no string twice. */
  lemma SortedDistinct(xs: seq<string>)
    requires StrictlySorted(xs)
    ensures NoDuplicates(xs)
  {
    forall i, j | 0 <= i < j < |xs| ensures xs[i] != xs[j] {
      LexLessIrreflexive(xs[i]);
    }
  }

  // ---------------------------------------------------------- the groups

  /** The grouping the panel means to build: a group for every category that
      occurs, holding that category's records in list order. */
  ghost predicate GroupsOf(list: seq<SavedSearch>, groups: map<string, seq<SavedSearch>>) {
    (forall c :: c in groups <==> HasCategory(list, c))
    && (forall c :: c in groups ==> groups[c] == ByCategory(list, c))
  }

  lemma ByCategoryAppend(list: seq<SavedSearch>, s: SavedSearch, c: string)
    ensures ByCategory(list + [s], c) == ByCategory(list, c) + (if s.category == c then [s] else [])
  {
    InCategoriesAppend(list, [s], {c});
    assert [s][1..] == [];
  }

  lemma HasCategoryAppend(list: seq<SavedSearch>, s: SavedSearch, c: string)
    ensures HasCategory(list + [s], c) <==> HasCategory(list, c) || s.category == c
  {
    var l := list + [s];
    if HasCategory(list, c) {
      var k :| 0 <= k < |list| && list[k].category == c;
      assert l[k] == list[k];
    }
    if HasCategory(l, c) {
      var k :| 0 <= k < |l| && l[k].category == c;
      if k < |list| {
        assert l[k] == list[k];
      }
    }
    assert l[|list|] == s;
  }

  lemma {:induction false} NoGroupWithoutCategory(list: seq<SavedSearch>, c: string)
    requires !HasCategory(list, c)
    ensures ByCategory(list, c) == []
  {
    if list != [] {
      assert list[0].category != c;
      assert !HasCategory(list[1..], c) by {
        forall k | 0 <= k < |list[1..]| ensures list[1..][k].category != c {
          assert list[1..][k] == list[k + 1];
        }
      }
      NoGroupWithoutCategory(list[1..], c);
    }
  }

  /** The dictionary after one more record. */
  function AddToGroups(groups: map<string, seq<SavedSearch>>, s: SavedSearch): map<string, seq<SavedSearch>> {
    if s.category in groups then groups[s.category := groups[s.category] + [s]]
    else groups[s.category := [s]]
  }

  lemma GroupsStep(list: seq<SavedSearch>, groups: map<string, seq<SavedSearch>>, s: SavedSearch)
    requires GroupsOf(list, groups)
    ensures GroupsOf(list + [s], AddToGroups(groups, s))
  {
    var next := AddToGroups(groups, s);
    forall c ensures c in next <==> HasCategory(list + [s], c) {
      HasCategoryAppend(list, s, c);
    }
    forall c | c in next ensures next[c] == ByCategory(list + [s], c) {
      ByCategoryAppend(list, s, c);
      if c !in groups {
        NoGroupWithoutCategory(list, c);
      }
    }
  }

  /** The `forEach` that fills `searchesByCategory`, with a dictionary that
      has no inherited keys. */
  method GroupByCategory(list: seq<SavedSearch>) returns (groups: map<string, seq<SavedSearch>>)
    ensures GroupsOf(list, groups)
  {
    groups := map[];
    var i := 0;
    while i < |list|
      invariant i <= |list|
      invariant GroupsOf(list[..i], groups)
    {
      var s := list[i];
      GroupsStep(list[..i], groups, s);
      assert list[..i + 1] == list[..i] + [s];
      if s.category !in groups {
        groups := groups[s.category := []];
      }
      groups := groups[s.category := groups[s.category] + [s]];
      i := i + 1;
    }
    assert list[..i] == list;
  }

  /** Every record is in the group of its own category and in no other, and
      no group is empty. */
  lemma GroupsArePartition(list: seq<SavedSearch>, groups: map<string, seq<SavedSearch>>)
    requires GroupsOf(list, groups)
    ensures forall c :: c in groups ==> groups[c] != []
    ensures forall c, s :: c in groups && s in groups[c] <==> s in list && s.category == c && c in groups
    ensures forall s :: s in list ==> s.category in groups
  {
    forall c | c in groups ensures groups[c] != [] {
      var k :| 0 <= k < |list| && list[k].category == c;
      assert list[k] in ByCategory(list, c);
    }
    forall s | s in list ensures s.category in groups {
      var k :| 0 <= k < |list| && list[k] == s;
    }
  }

  /** The group keys are exactly the store's categories, in sorted order. */
  function SortedCategories(list: seq<SavedSearch>): (cats: seq<string>)
    ensures StrictlySorted(cats)
    ensures forall c :: c in cats <==> HasCategory(list, c)
  {
    var cats := Categories(list);
    var sorted := SortStrings(cats);
    assert forall c :: c in sorted <==> c in multiset(cats);
    sorted
  }

  // -------------------------------------------- the dictionary as written

  /** The names a plain object `{}` inherits from `Object.prototype`. Reading
      any of them gives a function or, for "__proto__", the prototype itself:
      never a falsy value and never an array. */
  const InheritedKeys: set<string> := {
    "constructor", "hasOwnProperty", "isPrototypeOf", "propertyIsEnumerable",
    "toLocaleString", "toString", "valueOf", "__defineGetter__", "__defineSetter__",
    "__lookupGetter__", "__lookupSetter__", "__proto__"}

  /** The `forEach` as written on `{}`: for an inherited key the emptiness test
      sees a truthy value, skips creating the array, and `.push` is then called
      on something that has none, which throws (`None`). */
  method GroupByCategoryAsWritten(list: seq<SavedSearch>) returns (groups: Option<map<string, seq<SavedSearch>>>)
    ensures groups.None? <==> exists k :: 0 <= k < |list| && list[k].category in InheritedKeys
    ensures groups.Some? ==> GroupsOf(list, groups.value)
  {
    var g: map<string, seq<SavedSearch>> := map[];
    var i := 0;
    while i < |list|
      invariant i <= |list|
      invariant forall k :: 0 <= k < i ==> list[k].category !in InheritedKeys
      invariant GroupsOf(list[..i], g)
    {
      var s := list[i];
      if s.category in InheritedKeys {
        return None;
      }
      GroupsStep(list[..i], g, s);
      assert list[..i + 1] == list[..i] + [s];
      if s.category !in g {
        g := g[s.category := []];
      }
      g := g[s.category := g[s.category] + [s]];
      i := i + 1;
    }
    assert list[..i] == list;
    return Some(g);
  }

  /** A single record in the category "constructor" makes the panel throw,
      while the intended grouping has one group holding it. */
  method ConstructorCategoryCrashes() returns (asWritten: Option<map<string, seq<SavedSearch>>>, intended: map<string, seq<SavedSearch>>)
    ensures asWritten.None?
    ensures intended.Keys == {"constructor"}
  {
    var s := SavedSearch("search_1", "Java", "java developer", "constructor", 1);
    assert [s][0].category in InheritedKeys;
    asWritten := GroupByCategoryAsWritten([s]);
    intended := GroupByCategory([s]);
    assert HasCategory([s], "constructor");
    forall c | c in intended ensures c == "constructor" {
      assert HasCategory([s], c);
    }
  }

  // ------------------------------------------------------------ the panel

  /** What the panel shows. `Crashed` is the render that throws. */
  datatype Panel =
    | Crashed
    | EmptyState
    | Grouped(categories: seq<string>, groups: map<string, seq<SavedSearch>>)

  /** What the panel shows, with the grouping as written: it runs before the
      emptiness test, so a record whose category is an inherited key makes
      the render throw; otherwise an empty list shows the empty-state message
      and any other list shows the sorted categories with their groups,
      exactly the intended grouping. */
  method Render(list: seq<SavedSearch>) returns (panel: Panel)
    ensures panel.Crashed? <==> exists k :: 0 <= k < |list| && list[k].category in InheritedKeys
    ensures panel.EmptyState? <==> list == []
    ensures panel.Grouped? ==> GroupsOf(list, panel.groups) && panel.categories == SortedCategories(list)
    ensures panel.Grouped? ==> forall c :: c in panel.categories <==> c in panel.groups
  {
    var groups := GroupByCategoryAsWritten(list);
    if groups.None? {
      return Crashed;
    }
    var sorted := SortedCategories(list);
    if |list| == 0 {
      return EmptyState;
    }
    return Grouped(sorted, groups.value);
  }

  /** The concrete case: one record in the category "constructor" makes the
      whole panel throw instead of showing one group. */
  method ConstructorCategoryPanel() returns (panel: Panel)
    ensures panel == Crashed
  {
    var s := SavedSearch("search_1", "Java", "java developer", "constructor", 1);
    assert [s][0].category in InheritedKeys;
    panel := Render([s]);
  }

  // ----------------------------------------------------------- the editor

  /** The inline editor's state. */
  class Editor {
    var editingId: Option<string>
    var editName: string
    var editCategory: string

    constructor()
      ensures editingId == None && editName == "" && editCategory == ""
    {
      editingId := None;
      editName := "";
      editCategory := "";
    }

    /** `handleEdit`: open the editor on a record with its current values. */
    method HandleEdit(s: SavedSearch)
      modifies this
      ensures editingId == Some(s.id) && editName == s.name && editCategory == s.category
    {
      editingId := Some(s.id);
      editName := s.name;
      editCategory := s.category;
    }

    method SetEditName(name: string)
      modifies this
      ensures editName == name && editingId == old(editingId) && editCategory == old(editCategory)
    {
      editName := name;
    }

    method SetEditCategory(category: string)
      modifies this
      ensures editCategory == category && editingId == old(editingId) && editName == old(editName)
    {
      editCategory := category;
    }

    /** `handleSaveEdit`: send name and category (never the query) for the
      record and close the editor. */
    method HandleSaveEdit(id: string) returns (sentId: string, updates: SearchUpdates)
      modifies this
      ensures sentId == id && updates == EditUpdates(old(editName), old(editCategory))
      ensures editingId == None && editName == old(editName) && editCategory == old(editCategory)
    {
      sentId, updates := id, EditUpdates(editName, editCategory);
      editingId := None;
    }

    /** `handleCancelEdit`: close the editor and send nothing. */
    method HandleCancelEdit()
      modifies this
      ensures editingId == None && editName == old(editName) && editCategory == old(editCategory)
    {
      editingId := None;
    }
  }

  /** The update an edit sends: name and category, never the query. */
  function EditUpdates(name: string, category: string): (u: SearchUpdates)
    ensures u.query.None? && u.name == Some(name) && u.category == Some(category)
  {
    SearchUpdates(Some(name), None, Some(category))
  }

  /** Saving an edit after changing nothing leaves the record as it was, apart
      from its timestamp. */
  lemma UnchangedEditKeepsRecord(s: SavedSearch, now: nat)
    ensures Overlay(s, EditUpdates(s.name, s.category), now) == s.(timestamp := now)
  {
  }

  /** After a saved edit the store's record has the edited name and category
      and its old query. */
  lemma SavedEditApplies(list: seq<SavedSearch>, i: nat, name: string, category: string, now: nat)
    requires i < |list|
    ensures var r := UpdateById(list, list[i].id, EditUpdates(name, category), now)[i];
            r.id == list[i].id && r.name == name && r.category == category && r.query == list[i].query
  {
  }
}
