/**
 * The mandi price list: a fixed list of market prices narrowed by a crop
 * search box and a market selection.
 */
module MandiPrices {
  import opened JsText
  import opened Lists

  datatype MandiPrice = MandiPrice(id: string, crop: string, mandi: string, price: string, date: string)

  const DummyPrices := [
    MandiPrice("1", "Wheat", "Indore", "₹2,500/quintal", "2024-09-15"),
    MandiPrice("2", "Rice", "Bhopal", "₹3,200/quintal", "2024-09-15"),
    MandiPrice("3", "Maize", "Jaipur", "₹1,800/quintal", "2024-09-14"),
    MandiPrice("4", "Mustard", "Jodhpur", "₹5,800/quintal", "2024-09-14"),
    MandiPrice("5", "Onion", "Nasik", "₹2,200/quintal", "2024-09-15"),
    MandiPrice("6", "Potato", "Agra", "₹1,500/quintal", "2024-09-15"),
    MandiPrice("7", "Tomato", "Hyderabad", "₹1,000/quintal", "2024-09-14")
  ]

  /** The market selection that matches every market, and the screen's initial one. */
  const AllMandis := "All Mandis"

  /** The crop name contains the query, ignoring case, and the market is the selected one or any. */
  predicate Matches(item: MandiPrice, searchQuery: string, selectedMandi: string) {
    Includes(Lower(item.crop), Lower(searchQuery)) && (selectedMandi == AllMandis || item.mandi == selectedMandi)
  }

  /** `filteredPrices`, over any list of prices. */
  function FilteredPrices(items: seq<MandiPrice>, searchQuery: string, selectedMandi: string): (shown: seq<MandiPrice>)
    ensures |shown| <= |items|
    ensures forall i :: 0 <= i < |shown| ==> Matches(shown[i], searchQuery, selectedMandi)
  {
    Filter(items, (item: MandiPrice) => Matches(item, searchQuery, selectedMandi))
  }

  /** An item is shown exactly when it is listed and matches. */
  lemma ShownIffMatches(items: seq<MandiPrice>, searchQuery: string, selectedMandi: string, item: MandiPrice)
    ensures item in FilteredPrices(items, searchQuery, selectedMandi) <==> item in items && Matches(item, searchQuery, selectedMandi)
  {
  }

  /** The shown list keeps the listed order. */
  lemma ShownInOrder(items: seq<MandiPrice>, searchQuery: string, selectedMandi: string)
    ensures IsSubsequence(FilteredPrices(items, searchQuery, selectedMandi), items)
  {
    FilterIsSubsequence(items, (item: MandiPrice) => Matches(item, searchQuery, selectedMandi));
  }

  /** On opening, with no query and every market, the whole list is shown. */
  lemma InitiallyShowsAll(items: seq<MandiPrice>)
    ensures FilteredPrices(items, "", AllMandis) == items
  {
    forall i | 0 <= i < |items|
      ensures Matches(items[i], "", AllMandis)
    {
      EverythingIncludesEmpty(Lower(items[i].crop));
    }
    FilterKeepsAll(items, (item: MandiPrice) => Matches(item, "", AllMandis));
  }

  /** Queries that differ only in case show the same list. */
  lemma CaseDoesNotMatter(items: seq<MandiPrice>, q: string, q': string, selectedMandi: string)
    requires Lower(q) == Lower(q')
    ensures FilteredPrices(items, q, selectedMandi) == FilteredPrices(items, q', selectedMandi)
  {
    FilterCongruent(items, (item: MandiPrice) => Matches(item, q, selectedMandi),
                           (item: MandiPrice) => Matches(item, q', selectedMandi));
  }

  /** Typing more into the query can only narrow the list. */
  lemma LongerQueryNarrows(items: seq<MandiPrice>, q: string, q': string, selectedMandi: string)
    requires Includes(q', q)
    ensures IsSubsequence(FilteredPrices(items, q', selectedMandi), FilteredPrices(items, q, selectedMandi))
  {
    LowerKeepsIncludes(q', q);
    forall item | item in items && Matches(item, q', selectedMandi)
      ensures Matches(item, q, selectedMandi)
    {
      IncludesTransitive(Lower(item.crop), Lower(q'), Lower(q));
    }
    FilterMonotone(items, (item: MandiPrice) => Matches(item, q', selectedMandi),
                          (item: MandiPrice) => Matches(item, q, selectedMandi));
  }
}
