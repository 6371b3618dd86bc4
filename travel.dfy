/** The "Lifestyle & Places" grid (`components/Travel.tsx`): the category tabs and the
    filtered list of `Content.TravelEntries` they select. */
module TravelPage {
  import opened Types
  import opened Lists
  import Content

  /** The selected tab: `'All'` or one `TravelCategory`. */
  datatype CategoryFilter = AllCategories | OnlyCategory(category: TravelCategory)

  const InitialFilter: CategoryFilter := AllCategories

  /** `categories`: All, then the four categories in the order Travel, Food, Hotel, Event. */
  const Categories: seq<CategoryFilter> :=
    [AllCategories, OnlyCategory(Travel), OnlyCategory(Food), OnlyCategory(Hotel), OnlyCategory(Event)]

  /** Every possible selection has exactly one tab. */
  lemma CategoriesCoverEachOnce(filter: CategoryFilter)
    ensures filter in Categories
    ensures forall i, j :: 0 <= i < j < |Categories| ==> Categories[i] != Categories[j]
  {
    match filter
    case AllCategories => assert Categories[0] == filter;
    case OnlyCategory(c) =>
      assert Categories[match c case Travel => 1 case Food => 2 case Hotel => 3 case Event => 4] == filter;
  }

  function InCategory(c: TravelCategory): TravelEntry -> bool {
    (e: TravelEntry) => e.category == c
  }

  /** `filteredEntries`: the list itself for `All`; otherwise exactly the entries of that
      category, each as often as in the list, in their original order. */
  function FilteredEntries(filter: CategoryFilter, entries: seq<TravelEntry>): (shown: seq<TravelEntry>)
    ensures filter.AllCategories? ==> shown == entries
    ensures filter.OnlyCategory? ==> forall e :: e in shown <==> e in entries && e.category == filter.category
    ensures filter.OnlyCategory? ==> forall e :: multiset(shown)[e] == if e.category == filter.category then multiset(entries)[e] else 0
    ensures IsSubsequence(shown, entries)
  {
    match filter
    case AllCategories =>
      SubsequenceReflexive(entries);
      entries
    case OnlyCategory(c) =>
      FilterIsSubsequence(entries, InCategory(c));
      Filter(entries, InCategory(c))
  }

  /** Picking the same category twice changes nothing: filtering a filtered list again gives it back. */
  lemma RefilterIsStable(filter: CategoryFilter, entries: seq<TravelEntry>)
    ensures FilteredEntries(filter, FilteredEntries(filter, entries)) == FilteredEntries(filter, entries)
  {
    if filter.OnlyCategory? {
      FilterIdempotent(entries, InCategory(filter.category));
    }
  }

  /** What the page shows under a tab. */
  function PageEntries(filter: CategoryFilter): (shown: seq<TravelEntry>)
    ensures |shown| <= |Content.TravelEntries|
    ensures forall e :: e in shown ==> e in Content.TravelEntries
  {
    FilteredEntries(filter, Content.TravelEntries)
  }

  datatype Icon = UtensilsIcon | PlaneIcon | BuildingIcon | TicketIcon

  /** `getCategoryIcon`: an icon for every category (the match is exhaustive). */
  function GetCategoryIcon(c: TravelCategory): Icon {
    match c
    case Food => UtensilsIcon
    case Travel => PlaneIcon
    case Hotel => BuildingIcon
    case Event => TicketIcon
  }

  /** Distinct categories get distinct icons. */
  lemma IconsDistinguishCategories(c: TravelCategory, d: TravelCategory)
    ensures GetCategoryIcon(c) == GetCategoryIcon(d) <==> c == d
  {
  }
}
