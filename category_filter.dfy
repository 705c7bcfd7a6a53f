/**
 * The selection logic of the category filter panel: the list of selected
 * category ids, the collapsible sections and the result counts shown beside
 * them. React state updates become functions from the old state to the new.
 */
module CategoryFilter {
  import opened Collections

  datatype Category = Category(id: string, name: string, count: int, color: string)

  function CountOf(c: Category): int {
    c.count
  }

  // ---------------------------------------------------------------------------
  // Selecting categories
  // ---------------------------------------------------------------------------

  /** `selected.filter(x => x !== id)`. */
  function Without(selected: seq<string>, id: string): (r: seq<string>)
    ensures |r| <= |selected|
    ensures forall x :: x in r <==> x in selected && x != id
  {
    if selected == [] then []
    else
      var init := selected[..|selected| - 1];
      var last := selected[|selected| - 1];
      assert selected == init + [last];
      Without(init, id) + (if last == id then [] else [last])
  }

  /** Removing `id` leaves the number of occurrences of every other id as it was. */
  lemma {:induction false} WithoutCount(selected: seq<string>, id: string, x: string)
    requires x != id
    ensures Count(Without(selected, id), x) == Count(selected, x)
  {
    if selected != [] {
      var init := selected[..|selected| - 1];
      var last := selected[|selected| - 1];
      assert selected == init + [last];
      WithoutCount(init, id, x);
      CountSnoc(init, last, x);
      if last != id {
        assert Without(selected, id) == Without(init, id) + [last];
        CountSnoc(Without(init, id), last, x);
      } else {
        assert Without(selected, id) == Without(init, id) + [];
        assert Without(init, id) + [] == Without(init, id);
      }
    }
  }

  /** Removing an id that is not there changes nothing. */
  lemma {:induction false} WithoutAbsent(selected: seq<string>, id: string)
    requires id !in selected
    ensures Without(selected, id) == selected
  {
    if selected != [] {
      var init := selected[..|selected| - 1];
      assert selected == init + [selected[|selected| - 1]];
      WithoutAbsent(init, id);
    }
  }

  lemma {:induction false} WithoutNoDups(selected: seq<string>, id: string)
    requires NoDups(selected)
    ensures NoDups(Without(selected, id))
  {
    if selected != [] {
      var init := selected[..|selected| - 1];
      var last := selected[|selected| - 1];
      assert selected == init + [last];
      assert NoDups(init);
      WithoutNoDups(init, id);
      assert last !in init;
    }
  }

  /**
   * `handleCategoryToggle`: a selected id is removed (every occurrence of it),
   * an unselected one is appended at the end.
   */
  function Toggle(selected: seq<string>, id: string): seq<string> {
    if id in selected then Without(selected, id) else selected + [id]
  }

  lemma ToggleFacts(selected: seq<string>, id: string)
    ensures id in Toggle(selected, id) <==> id !in selected
    ensures id !in selected ==> Toggle(selected, id) == selected + [id]
    ensures forall x :: x != id ==> Count(Toggle(selected, id), x) == Count(selected, x)
    ensures NoDups(selected) ==> NoDups(Toggle(selected, id))
  {
    forall x | x != id
      ensures Count(Toggle(selected, id), x) == Count(selected, x)
    {
      if id in selected {
        WithoutCount(selected, id, x);
      } else {
        CountSnoc(selected, id, x);
      }
    }
    if NoDups(selected) && id in selected {
      WithoutNoDups(selected, id);
    }
  }

  /** Toggling an unselected id twice gives back the original selection. */
  lemma ToggleTwice(selected: seq<string>, id: string)
    requires id !in selected
    ensures Toggle(Toggle(selected, id), id) == selected
  {
    var once := selected + [id];
    assert id in once;
    var init := once[..|once| - 1];
    assert init == selected;
    WithoutAbsent(selected, id);
  }

  /** `handleSelectAll`: the ids of all categories, in category order. */
  function SelectAll(categories: seq<Category>): (r: seq<string>)
    ensures |r| == |categories|
    ensures forall i :: 0 <= i < |categories| ==> r[i] == categories[i].id
  {
    seq(|categories|, i requires 0 <= i < |categories| => categories[i].id)
  }

  /** `handleClearAll`. */
  function ClearAll(): seq<string> {
    []
  }

  // ---------------------------------------------------------------------------
  // Result counts
  // ---------------------------------------------------------------------------

  /** `c => selected.includes(c.id)`. */
  function IsSelected(selected: seq<string>): Category -> bool {
    (c: Category) => c.id in selected
  }

  /** The categories whose id is selected, in category order. */
  function SelectedCategories(categories: seq<Category>, selected: seq<string>): seq<Category> {
    Filter(categories, IsSelected(selected))
  }

  /** `totalSelectedPosts`: the summed counts of the selected categories. */
  function TotalSelected(categories: seq<Category>, selected: seq<string>): int {
    SumBy(SelectedCategories(categories, selected), CountOf)
  }

  /** The result count under the panel: every category's posts when nothing is selected. */
  function DisplayedCount(categories: seq<Category>, selected: seq<string>): int {
    if |selected| == 0 then SumBy(categories, CountOf) else TotalSelected(categories, selected)
  }

  /** A filter of non-negative terms sums to no more than the whole. */
  lemma {:induction false} FilterSumBounds<T>(s: seq<T>, p: T -> bool, f: T -> int)
    requires forall i :: 0 <= i < |s| ==> f(s[i]) >= 0
    ensures 0 <= SumBy(Filter(s, p), f) <= SumBy(s, f)
  {
    if s != [] {
      var init := s[..|s| - 1];
      var last := s[|s| - 1];
      assert s == init + [last];
      FilterSumBounds(init, p, f);
      SumByConcat(init, [last], f);
      SumByConcat(Filter(init, p), if p(last) then [last] else [], f);
    }
  }

  lemma TotalSelectedFacts(categories: seq<Category>, selected: seq<string>)
    ensures selected == [] ==> TotalSelected(categories, selected) == 0
    ensures (forall i :: 0 <= i < |categories| ==> categories[i].id in selected)
            ==> TotalSelected(categories, selected) == SumBy(categories, CountOf)
    ensures (forall i :: 0 <= i < |categories| ==> categories[i].count >= 0)
            ==> 0 <= TotalSelected(categories, selected) <= SumBy(categories, CountOf)
  {
    FilterExtremes(categories, IsSelected(selected));
    if forall i :: 0 <= i < |categories| ==> categories[i].count >= 0 {
      FilterSumBounds(categories, IsSelected(selected), CountOf);
    }
  }

  /** Selecting all categories, or none, shows the count of every post. */
  lemma DisplayedCountFacts(categories: seq<Category>, selected: seq<string>)
    ensures DisplayedCount(categories, ClearAll()) == SumBy(categories, CountOf)
    ensures DisplayedCount(categories, SelectAll(categories)) == SumBy(categories, CountOf)
    ensures selected != [] ==> DisplayedCount(categories, selected) == TotalSelected(categories, selected)
  {
    var all := SelectAll(categories);
    assert forall i :: 0 <= i < |categories| ==> categories[i].id in all by {
      forall i | 0 <= i < |categories|
        ensures categories[i].id in all
      {
        assert all[i] == categories[i].id;
      }
    }
    TotalSelectedFacts(categories, all);
    TotalSelectedFacts(categories, []);
  }

  // ---------------------------------------------------------------------------
  // Collapsible sections
  // ---------------------------------------------------------------------------

  datatype Section = CategoriesSection | AuthorsSection | KeywordsSection | DatesSection

  datatype Sections = Sections(categories: bool, authors: bool, keywords: bool, dates: bool)

  /** Only the categories section starts expanded. */
  const INITIAL_SECTIONS: Sections := Sections(true, false, false, false)

  function Expanded(s: Sections, section: Section): bool {
    match section
    case CategoriesSection => s.categories
    case AuthorsSection => s.authors
    case KeywordsSection => s.keywords
    case DatesSection => s.dates
  }

  /** `toggleSection`: `{...prev, [section]: !prev[section]}`. */
  function ToggleSection(s: Sections, section: Section): (r: Sections)
    ensures Expanded(r, section) == !Expanded(s, section)
    ensures forall other :: other != section ==> Expanded(r, other) == Expanded(s, other)
  {
    match section
    case CategoriesSection => s.(categories := !s.categories)
    case AuthorsSection => s.(authors := !s.authors)
    case KeywordsSection => s.(keywords := !s.keywords)
    case DatesSection => s.(dates := !s.dates)
  }

  /** A section toggled twice is back where it was. */
  lemma ToggleSectionTwice(s: Sections, section: Section)
    ensures ToggleSection(ToggleSection(s, section), section) == s
  {
  }
}
