/** The gallery page's filter: a category button ('All' or one category) combined with
    a case-insensitive search in the title or, when there is one, the description. */
module Gallery {
  import opened Common
  import opened Strings

  /** A `painting_designs` row as the gallery shows it. */
  datatype GalleryItem = GalleryItem(title: string, category: string, description: Option<string>)

  /** The filter state: the selected category and the search term. */
  datatype Filters = Filters(category: string, searchTerm: string)

  /** `matchesCategory`. */
  predicate MatchesCategory(item: GalleryItem, category: string) {
    category == "All" || item.category == category
  }

  /** `matchesSearch`: the lower-cased term occurs in the lower-cased title, or in the
      lower-cased description when the description is not empty. */
  predicate MatchesSearch(item: GalleryItem, term: string) {
    Contains(ToLower(item.title), ToLower(term)) ||
    (Truthy(item.description) && Contains(ToLower(item.description.value), ToLower(term)))
  }

  predicate Matches(item: GalleryItem, f: Filters) {
    MatchesCategory(item, f.category) && MatchesSearch(item, f.searchTerm)
  }

  /** `filteredItems`. */
  function Filtered(items: seq<GalleryItem>, f: Filters): seq<GalleryItem> {
    Filter((item: GalleryItem) => Matches(item, f), items)
  }

  /** The Clear Filters button: back to 'All' and an empty search. */
  function ClearFilters(): Filters {
    Filters("All", "")
  }

  /** `needle` occurs in `hay` at some position. */
  ghost predicate OccursSomewhere(hay: string, needle: string) {
    exists i :: OccursAt(hay, needle, i)
  }

  /** 'All' admits every category, any other category only itself; the search matches
      exactly when the lower-cased term occurs at some position of the lower-cased
      title or of a present description. */
  lemma MatchesSpec(item: GalleryItem, f: Filters)
    ensures f.category == "All" ==> MatchesCategory(item, f.category)
    ensures f.category != "All" ==> (MatchesCategory(item, f.category) <==> item.category == f.category)
    ensures MatchesSearch(item, f.searchTerm) <==>
              OccursSomewhere(ToLower(item.title), ToLower(f.searchTerm)) ||
              (Truthy(item.description) && OccursSomewhere(ToLower(item.description.value), ToLower(f.searchTerm)))
  {
    ContainsIff(ToLower(item.title), ToLower(f.searchTerm));
    if Truthy(item.description) {
      ContainsIff(ToLower(item.description.value), ToLower(f.searchTerm));
    }
  }

  /** The filtered list keeps the gallery's order and holds exactly the matching items,
      so "Showing n of m" never shows n > m. */
  lemma FilteredSpec(items: seq<GalleryItem>, f: Filters)
    ensures IsSubseq(Filtered(items, f), items)
    ensures |Filtered(items, f)| <= |items|
    ensures forall i :: 0 <= i < |Filtered(items, f)| ==> Matches(Filtered(items, f)[i], f)
    ensures forall i :: 0 <= i < |items| && Matches(items[i], f) ==> items[i] in Filtered(items, f)
  {
    FilterIsSubseq((item: GalleryItem) => Matches(item, f), items);
  }

  /** After Clear Filters (and with 'All' and an empty term at first) every item is
      shown. */
  lemma ClearFiltersShowsAll(items: seq<GalleryItem>)
    ensures Filtered(items, ClearFilters()) == items
  {
    assert ToLower("") == "";
    forall i | 0 <= i < |items|
      ensures Matches(items[i], ClearFilters())
    {
      ContainsEmpty(ToLower(items[i].title));
    }
    FilterAll((item: GalleryItem) => Matches(item, ClearFilters()), items);
  }

  /** The search ignores case: a term and its lower-cased form select the same items. */
  lemma SearchIgnoresCase(items: seq<GalleryItem>, category: string, term: string)
    ensures Filtered(items, Filters(category, ToLower(term))) == Filtered(items, Filters(category, term))
  {
    ToLowerIdempotent(term);
    FilterSame((item: GalleryItem) => Matches(item, Filters(category, ToLower(term))),
               (item: GalleryItem) => Matches(item, Filters(category, term)), items);
  }

  /** Typing more of the search term only narrows the list: the items shown for the
      longer term are a sub-list of those shown for the shorter one. */
  lemma LongerTermNarrows(items: seq<GalleryItem>, category: string, term: string, more: string)
    ensures IsSubseq(Filtered(items, Filters(category, term + more)), Filtered(items, Filters(category, term)))
  {
    ToLowerAppend(term, more);
    forall i | 0 <= i < |items| && Matches(items[i], Filters(category, term + more))
      ensures Matches(items[i], Filters(category, term))
    {
      var item := items[i];
      if Contains(ToLower(item.title), ToLower(term + more)) {
        ContainsPrefixOfNeedle(ToLower(item.title), ToLower(term), ToLower(more));
      } else {
        ContainsPrefixOfNeedle(ToLower(item.description.value), ToLower(term), ToLower(more));
      }
    }
    FilterImplies((item: GalleryItem) => Matches(item, Filters(category, term + more)),
                  (item: GalleryItem) => Matches(item, Filters(category, term)), items);
  }
}
