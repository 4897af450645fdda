/**
 * The menu page of src/pages/Home.tsx: the search over the menu's categories and dishes, the
 * rule that decides which categories are open, and the page state the category chips, the
 * search box and the category headers change.
 */
module Home {
  import opened Wrappers
  import opened Text
  import opened Platform
  import opened Menu

  /** A menu category; `image` is "" when the menu data has none. */
  datatype Category = Category(id: string, nameEn: string, nameAr: string, image: string, items: seq<MenuItem>)

  /**
   * The search test of one dish: an empty query keeps everything; otherwise the lower-cased
   * query must occur in the lower-cased English name, in the Arabic name, or in a description
   * that is present (the English one lower-cased).
   */
  predicate Matches(env: Env, query: string, item: MenuItem) {
    query == ""
    || Contains(env.lower(item.nameEn), env.lower(query))
    || Contains(item.nameAr, env.lower(query))
    || (item.descriptionEn != "" && Contains(env.lower(item.descriptionEn), env.lower(query)))
    || (item.descriptionAr != "" && Contains(item.descriptionAr, env.lower(query)))
  }

  /** The dishes of a category that pass the search, in menu order. */
  function MatchingItems(env: Env, query: string, items: seq<MenuItem>): (r: seq<MenuItem>)
    ensures |r| <= |items|
  {
    if items == [] then []
    else
      var last := items[|items| - 1];
      MatchingItems(env, query, items[..|items| - 1]) + (if Matches(env, query, last) then [last] else [])
  }

  lemma MatchingSnoc(env: Env, query: string, items: seq<MenuItem>, x: MenuItem)
    ensures MatchingItems(env, query, items + [x])
      == MatchingItems(env, query, items) + (if Matches(env, query, x) then [x] else [])
  {
    assert (items + [x])[..|items|] == items;
  }

  /** A dish is listed exactly when it is one of the category's dishes and passes the search. */
  lemma {:induction false} MatchingItemsMembers(env: Env, query: string, items: seq<MenuItem>)
    ensures forall x :: x in MatchingItems(env, query, items) <==> x in items && Matches(env, query, x)
  {
    if items != [] {
      var n := |items| - 1;
      MatchingItemsMembers(env, query, items[..n]);
      assert items == items[..n] + [items[n]];
      MatchingSnoc(env, query, items[..n], items[n]);
    }
  }

  /** The search keeps the menu order: it works on each part of a list independently. */
  lemma {:induction false} MatchingItemsAppend(env: Env, query: string, a: seq<MenuItem>, b: seq<MenuItem>)
    ensures MatchingItems(env, query, a + b) == MatchingItems(env, query, a) + MatchingItems(env, query, b)
    decreases |b|
  {
    if b == [] {
      assert a + b == a;
    } else {
      var n := |b| - 1;
      assert a + b == (a + b[..n]) + [b[n]];
      assert b == b[..n] + [b[n]];
      MatchingSnoc(env, query, a + b[..n], b[n]);
      MatchingSnoc(env, query, b[..n], b[n]);
      MatchingItemsAppend(env, query, a, b[..n]);
      Regroup(MatchingItems(env, query, a), MatchingItems(env, query, b[..n]),
        if Matches(env, query, b[n]) then [b[n]] else []);
    }
  }

  /** An empty search keeps every dish. */
  lemma {:induction false} EmptyQueryKeepsItems(env: Env, items: seq<MenuItem>)
    ensures MatchingItems(env, "", items) == items
  {
    if items != [] {
      var n := |items| - 1;
      EmptyQueryKeepsItems(env, items[..n]);
      assert items == items[..n] + [items[n]];
      MatchingSnoc(env, "", items[..n], items[n]);
    }
  }

  /** A category's picture: its own image, or a placeholder showing its English name. */
  function CategoryImage(env: Env, c: Category): (url: string)
    ensures c.image != "" ==> url == c.image
    ensures c.image == "" ==> url == "https://placehold.co/600x200?text=" + env.encode(c.nameEn)
    ensures url != ""
  {
    if c.image != "" then c.image else "https://placehold.co/600x200?text=" + env.encode(c.nameEn)
  }

  /** A category as the page shows it: only its matching dishes, and a picture in any case. */
  function Shown(env: Env, query: string, c: Category): Category {
    c.(items := MatchingItems(env, query, c.items), image := CategoryImage(env, c))
  }

  /** The categories the page lists: those with a matching dish, in menu order. */
  function FilteredCategories(env: Env, query: string, categories: seq<Category>): (r: seq<Category>)
    ensures |r| <= |categories|
  {
    if categories == [] then []
    else
      var last := categories[|categories| - 1];
      var front := FilteredCategories(env, query, categories[..|categories| - 1]);
      if MatchingItems(env, query, last.items) == [] then front else front + [Shown(env, query, last)]
  }

  lemma FilteredSnoc(env: Env, query: string, categories: seq<Category>, c: Category)
    ensures FilteredCategories(env, query, categories + [c])
      == FilteredCategories(env, query, categories)
         + (if MatchingItems(env, query, c.items) == [] then [] else [Shown(env, query, c)])
  {
    assert (categories + [c])[..|categories|] == categories;
  }

  /** `s` is how the page shows a category of the menu that has a matching dish. */
  predicate Listed(env: Env, query: string, categories: seq<Category>, s: Category) {
    exists c :: c in categories && MatchingItems(env, query, c.items) != [] && s == Shown(env, query, c)
  }

  /**
   * The page lists exactly the categories with a matching dish, each with its matching dishes
   * only and a picture; so a listed category is never empty.
   */
  lemma {:induction false} FilteredCategoriesMembers(env: Env, query: string, categories: seq<Category>)
    ensures forall s :: s in FilteredCategories(env, query, categories) <==> Listed(env, query, categories, s)
    ensures forall s :: s in FilteredCategories(env, query, categories) ==> s.items != [] && s.image != ""
  {
    if categories != [] {
      var n := |categories| - 1;
      var front, last := categories[..n], categories[n];
      FilteredCategoriesMembers(env, query, front);
      assert categories == front + [last];
      FilteredSnoc(env, query, front, last);
      forall s ensures s in FilteredCategories(env, query, categories) <==> Listed(env, query, categories, s) {
        if Listed(env, query, categories, s) {
          var c :| c in categories && MatchingItems(env, query, c.items) != [] && s == Shown(env, query, c);
          if c != last {
            assert c in front;
          }
        }
        if Listed(env, query, front, s) {
          var c :| c in front && MatchingItems(env, query, c.items) != [] && s == Shown(env, query, c);
          assert c in categories;
        }
      }
    }
  }

  /** The category list keeps the menu order: it works on each part of the menu independently. */
  lemma {:induction false} FilteredCategoriesAppend(env: Env, query: string, a: seq<Category>, b: seq<Category>)
    ensures FilteredCategories(env, query, a + b)
      == FilteredCategories(env, query, a) + FilteredCategories(env, query, b)
    decreases |b|
  {
    if b == [] {
      assert a + b == a;
    } else {
      var n := |b| - 1;
      assert a + b == (a + b[..n]) + [b[n]];
      assert b == b[..n] + [b[n]];
      FilteredSnoc(env, query, a + b[..n], b[n]);
      FilteredSnoc(env, query, b[..n], b[n]);
      FilteredCategoriesAppend(env, query, a, b[..n]);
      Regroup(FilteredCategories(env, query, a), FilteredCategories(env, query, b[..n]),
        if MatchingItems(env, query, b[n].items) == [] then [] else [Shown(env, query, b[n])]);
    }
  }

  /** With an empty search every non-empty category is listed, with all its dishes. */
  lemma EmptyQueryShowsMenu(env: Env, categories: seq<Category>)
    ensures forall c :: c in categories && c.items != [] ==>
      c.(image := CategoryImage(env, c)) in FilteredCategories(env, "", categories)
    ensures forall s :: s in FilteredCategories(env, "", categories) ==>
      exists c :: c in categories && s == c.(image := CategoryImage(env, c))
  {
    FilteredCategoriesMembers(env, "", categories);
    forall c | c in categories
      ensures Shown(env, "", c) == c.(image := CategoryImage(env, c))
    {
      EmptyQueryKeepsItems(env, c.items);
    }
  }

  // ---------------------------------------------------------------- which categories are open

  /**
   * After a chip click only the chosen category is open; otherwise the expanded one is, and
   * while something is typed in the search box, every listed one.
   */
  predicate IsOpen(selectionMode: bool, expanded: Option<string>, query: string, id: string) {
    if selectionMode then expanded == Some(id) else expanded == Some(id) || |query| > 0
  }

  /** A header click closes its category when it is the expanded one, else expands it. */
  function Toggled(expanded: Option<string>, id: string): Option<string> {
    if expanded == Some(id) then None else Some(id)
  }

  /**
   * In selection mode at most one category is open; outside it a non-empty search opens every
   * category, and with an empty search only the expanded one is open.
   */
  lemma OpenCategories(selectionMode: bool, expanded: Option<string>, query: string)
    ensures selectionMode ==>
      forall a, b :: IsOpen(selectionMode, expanded, query, a) && IsOpen(selectionMode, expanded, query, b) ==> a == b
    ensures !selectionMode && query != "" ==> forall a :: IsOpen(selectionMode, expanded, query, a)
    ensures query == "" ==> forall a :: IsOpen(selectionMode, expanded, query, a) <==> expanded == Some(a)
  {
  }

  /**
   * A header click flips its own category when no search holds it open, and in selection
   * mode leaves every other category closed.
   */
  lemma HeaderClickFlips(selectionMode: bool, expanded: Option<string>, query: string, id: string)
    ensures (selectionMode || query == "") ==>
      (IsOpen(selectionMode, Toggled(expanded, id), query, id) <==> !IsOpen(selectionMode, expanded, query, id))
    ensures selectionMode ==> forall other :: other != id ==> !IsOpen(selectionMode, Toggled(expanded, id), query, other)
  {
  }

  class HomePage {
    var expandedCategory: Option<string>
    var expandedItemId: Option<string>
    var searchQuery: string
    var menuSelectionMode: bool

    /** Nothing expanded, no search, not in selection mode. */
    constructor ()
      ensures expandedCategory == None && expandedItemId == None
      ensures searchQuery == "" && !menuSelectionMode
    {
      expandedCategory := None;
      expandedItemId := None;
      searchQuery := "";
      menuSelectionMode := false;
    }

    /** Whether the category `id` shows its dishes. */
    predicate Open(id: string)
      reads this
    {
      IsOpen(menuSelectionMode, expandedCategory, searchQuery, id)
    }

    /** A category chip: selection mode, that category expanded, no dish expanded. */
    method CategoryClick(categoryId: string)
      modifies this
      ensures menuSelectionMode && expandedCategory == Some(categoryId) && expandedItemId == None
      ensures searchQuery == old(searchQuery)
      ensures forall id :: Open(id) <==> id == categoryId
    {
      menuSelectionMode := true;
      expandedCategory := Some(categoryId);
      expandedItemId := None;
    }

    /** Typing in the search box leaves selection mode. */
    method Search(text: string)
      modifies this
      ensures searchQuery == text && !menuSelectionMode
      ensures expandedCategory == old(expandedCategory) && expandedItemId == old(expandedItemId)
    {
      searchQuery := text;
      menuSelectionMode := false;
    }

    /** A category header toggles whether it is the expanded category. */
    method HeaderClick(categoryId: string)
      modifies this
      ensures expandedCategory == Toggled(old(expandedCategory), categoryId)
      ensures expandedItemId == old(expandedItemId) && searchQuery == old(searchQuery)
      ensures menuSelectionMode == old(menuSelectionMode)
    {
      expandedCategory := if expandedCategory == Some(categoryId) then None else Some(categoryId);
    }
  }
}
