/** The marketplace browser of `src/components/Markeplace.jsx`: a search
    box and two drop-downs filter the static catalog; the page shows how
    many entries are left, an empty state when none is, and a short
    compatibility label on every card. The catalog is a parameter of the
    filter; the page applies it to `MarketplaceData.Catalog()`. */
module Marketplace {
  import opened Seqs
  import opened Strings
  import opened MarketplaceData

  /** One choice of a filter drop-down. */
  datatype FilterOption = FilterOption(id: string, name: string)

  /** The drop-down value that disables a filter. */
  const All: string := "all"

  const Categories: seq<FilterOption> := [
    FilterOption("all", "All Categories"),
    FilterOption("sorting", "Sorting & Recycling"),
    FilterOption("manipulation", "Object Manipulation"),
    FilterOption("cleaning", "Cleaning & Maintenance"),
    FilterOption("retail", "Retail Operations"),
    FilterOption("gardening", "Agriculture & Gardening"),
    FilterOption("household", "Household Tasks"),
    FilterOption("logistics", "Logistics & Shipping"),
    FilterOption("organization", "Organization & Storage")
  ]

  const RobotTypes: seq<FilterOption> := [
    FilterOption("all", "All Robots"),
    FilterOption("arm", "Robotic Arms"),
    FilterOption("mobile", "Mobile Robots")
  ]

  /** The ids a drop-down offers. */
  function OptionIds(options: seq<FilterOption>): (ids: seq<string>)
    ensures |ids| == |options|
    ensures forall i :: 0 <= i < |options| ==> ids[i] == options[i].id
  {
    seq(|options|, i requires 0 <= i < |options| => options[i].id)
  }

  /** The search clause: the lowercased query occurs in the lowercased
      title, description or some tag. */
  predicate MatchesSearch(item: Item, query: string) {
    var q := Lower(query);
    || Contains(Lower(item.title), q)
    || Contains(Lower(item.description), q)
    || exists j :: 0 <= j < |item.tags| && Contains(Lower(item.tags[j]), q)
  }

  predicate MatchesCategory(item: Item, selectedCategory: string) {
    selectedCategory == All || item.category == selectedCategory
  }

  predicate MatchesRobotType(item: Item, selectedRobotType: string) {
    selectedRobotType == All || item.robotType == selectedRobotType
  }

  /** The condition an entry must meet to be listed. */
  predicate Keep(item: Item, query: string, selectedCategory: string, selectedRobotType: string) {
    && MatchesSearch(item, query)
    && MatchesCategory(item, selectedCategory)
    && MatchesRobotType(item, selectedRobotType)
  }

  /** `filteredItems`: the listed entries, in catalog order. */
  function FilteredItems(items: seq<Item>, query: string, selectedCategory: string, selectedRobotType: string): (listed: seq<Item>)
    ensures forall i :: 0 <= i < |listed| ==> listed[i] in items && Keep(listed[i], query, selectedCategory, selectedRobotType)
    ensures forall i :: 0 <= i < |items| && Keep(items[i], query, selectedCategory, selectedRobotType) ==> items[i] in listed
    ensures forall x :: multiset(listed)[x] == if Keep(x, query, selectedCategory, selectedRobotType) then multiset(items)[x] else 0
  {
    var p := (it: Item) => Keep(it, query, selectedCategory, selectedRobotType);
    var listed := Filter(items, p);
    FilterCounts(items, p);
    listed
  }

  /** An entry is listed exactly when it is in the catalog and meets all
      three conditions. */
  lemma FilteredItemsMembership(items: seq<Item>, query: string, selectedCategory: string, selectedRobotType: string, it: Item)
    ensures it in FilteredItems(items, query, selectedCategory, selectedRobotType)
        <==> it in items && MatchesSearch(it, query)
             && MatchesCategory(it, selectedCategory) && MatchesRobotType(it, selectedRobotType)
  {
    var r := FilteredItems(items, query, selectedCategory, selectedRobotType);
    if it in r {
      var i :| 0 <= i < |r| && r[i] == it;
    }
    if it in items && Keep(it, query, selectedCategory, selectedRobotType) {
      var i :| 0 <= i < |items| && items[i] == it;
    }
  }

  /** The list is the catalog with some entries deleted, order kept, so it is
      never longer than the catalog. */
  lemma FilteredItemsOrderPreserving(items: seq<Item>, query: string, selectedCategory: string, selectedRobotType: string)
    ensures IsSubsequence(FilteredItems(items, query, selectedCategory, selectedRobotType), items)
    ensures |FilteredItems(items, query, selectedCategory, selectedRobotType)| <= |items|
  {
    FilterIsSubsequence(items, (it: Item) => Keep(it, query, selectedCategory, selectedRobotType));
  }

  /** The initial page state (empty query, both filters on "all") lists
      every entry. */
  lemma InitialStateListsEverything(items: seq<Item>)
    ensures FilteredItems(items, "", All, All) == items
  {
    forall i | 0 <= i < |items| ensures Keep(items[i], "", All, All) {
      assert Lower("") == "";
      ContainsEmpty(Lower(items[i].title));
    }
    FilterKeepsAll(items, (it: Item) => Keep(it, "", All, All));
  }

  /** With a category selected, every listed entry has that category; the
      same holds for the robot type. */
  lemma SelectedFiltersHold(items: seq<Item>, query: string, selectedCategory: string, selectedRobotType: string)
    ensures selectedCategory != All ==>
      forall i :: 0 <= i < |FilteredItems(items, query, selectedCategory, selectedRobotType)| ==>
        FilteredItems(items, query, selectedCategory, selectedRobotType)[i].category == selectedCategory
    ensures selectedRobotType != All ==>
      forall i :: 0 <= i < |FilteredItems(items, query, selectedCategory, selectedRobotType)| ==>
        FilteredItems(items, query, selectedCategory, selectedRobotType)[i].robotType == selectedRobotType
  {
  }

  /** What the results area shows: the "Showing n of m robot tasks" counts
      and whether the "No tasks found" empty state appears. */
  datatype ResultsView = ResultsView(shown: nat, total: nat, emptyState: bool)

  function Results(items: seq<Item>, query: string, selectedCategory: string, selectedRobotType: string): (v: ResultsView)
    ensures v.shown == |FilteredItems(items, query, selectedCategory, selectedRobotType)|
    ensures v.total == |items| && v.shown <= v.total
    ensures v.emptyState <==> v.shown == 0
    ensures v.emptyState <==>
      forall i :: 0 <= i < |items| ==> !Keep(items[i], query, selectedCategory, selectedRobotType)
  {
    var listed := FilteredItems(items, query, selectedCategory, selectedRobotType);
    assert |listed| > 0 ==> exists i :: 0 <= i < |items| && Keep(items[i], query, selectedCategory, selectedRobotType) by {
      if |listed| > 0 {
        var j :| 0 <= j < |items| && items[j] == listed[0];
      }
    }
    ResultsView(|listed|, |items|, |listed| == 0)
  }

  /** The "Compatible with:" label: the first two platforms joined by ", ",
      then "..." when there are more than two. */
  function CompatibilityLabel(compatibility: seq<string>): (text: string)
    ensures |compatibility| > 2 ==> text == compatibility[0] + ", " + compatibility[1] + "..."
    ensures |compatibility| <= 2 ==> text == Join(compatibility, ", ")
  {
    var shown := Take(compatibility, 2);
    assert |compatibility| <= 2 ==> shown == compatibility;
    assert |compatibility| >= 2 ==>
      (shown == [compatibility[0], compatibility[1]] && Join(shown, ", ") == compatibility[0] + ", " + Join(shown[1..], ", "));
    Join(shown, ", ") + (if |compatibility| > 2 then "..." else "")
  }

  /** `getRobotImage`'s placeholder colours. */
  const ImageColors: map<string, string> := map[
    "bottle-sorter" := "#3498db",
    "precision-pickup" := "#e74c3c",
    "floor-cleaner" := "#2ecc71",
    "shelf-stocker" := "#f39c12",
    "plant-waterer" := "#27ae60",
    "kitchen-helper" := "#9b59b6",
    "package-sorter" := "#e67e22",
    "tool-organizer" := "#1abc9c"
  ]

  /** The colour of a card's image area; unknown keys fall back to grey. */
  function RobotImageColor(imageId: string): (colour: string)
    ensures imageId in ImageColors ==> colour == ImageColors[imageId]
    ensures imageId !in ImageColors ==> colour == "#bdc3c7"
  {
    if imageId in ImageColors then ImageColors[imageId] else "#bdc3c7"
  }

  /** Every catalog entry's robot type is "arm" or "mobile", both of which
      the robot-type drop-down offers. */
  lemma CatalogRobotTypesSelectable()
    ensures forall i :: 0 <= i < |Catalog()| ==>
      Catalog()[i].robotType in {"arm", "mobile"} && Catalog()[i].robotType in OptionIds(RobotTypes)
  {
    assert OptionIds(RobotTypes) == ["all", "arm", "mobile"];
  }

  /** Every catalog entry's category is one the category drop-down offers,
      other than "all". */
  lemma CatalogCategoriesSelectable()
    ensures forall i :: 0 <= i < |Catalog()| ==>
      Catalog()[i].category != All && Catalog()[i].category in OptionIds(Categories)
  {
    assert OptionIds(Categories) == ["all", "sorting", "manipulation", "cleaning", "retail",
                                     "gardening", "household", "logistics", "organization"];
  }

  /** Every catalog image key has its own colour, so no card shows the
      fallback grey. */
  lemma CatalogImagesHaveColours()
    ensures forall i :: 0 <= i < |Catalog()| ==>
      Catalog()[i].image in ImageColors && RobotImageColor(Catalog()[i].image) != "#bdc3c7"
  {
  }

  /** Every card's label is its first two platforms followed by "...". */
  lemma CatalogCompatibilityLabels()
    ensures forall i :: 0 <= i < |Catalog()| ==>
      CompatibilityLabel(Catalog()[i].compatibility)
        == Catalog()[i].compatibility[0] + ", " + Catalog()[i].compatibility[1] + "..."
  {
    CatalogShape();
  }
}
