/**
 * The crop protection screen: a fixed list of pests and their remedies
 * narrowed by a search box, with a card saying when nothing matches.
 */
module CropProtection {
  import opened JsText
  import opened Lists

  datatype PestInfo = PestInfo(id: string, name: string, solution: string, image: string)

  const DummyPests := [
    PestInfo("1", "Stem Borer", "Use Carbofuran 3G granules or spray Chlorantraniliprole 18.5% SC.",
             "https://placehold.co/100x100/A5D6A7/2E7D32?text=Stem+Borer"),
    PestInfo("2", "Leaf Miner", "Spray Neem oil or use Cyromazine 75% WP.",
             "https://placehold.co/100x100/A5D6A7/2E7D32?text=Leaf+Miner"),
    PestInfo("3", "Rice Blast", "Apply fungicides like Tricyclazole or a combination of Carbendazim and Mancozeb.",
             "https://placehold.co/100x100/A5D6A7/2E7D32?text=Rice+Blast"),
    PestInfo("4", "Aphids", "Spray a solution of insecticidal soap or use Imidacloprid 17.8% SL.",
             "https://placehold.co/100x100/A5D6A7/2E7D32?text=Aphids"),
    PestInfo("5", "Root Rot", "Improve soil drainage and use fungicides like Fosetyl-Al.",
             "https://placehold.co/100x100/A5D6A7/2E7D32?text=Root+Rot")
  ]

  /** The pest's name contains the query, ignoring case. */
  predicate Matches(pest: PestInfo, searchQuery: string) {
    Includes(Lower(pest.name), Lower(searchQuery))
  }

  /** `filteredPests` */
  function FilteredPests(searchQuery: string): (shown: seq<PestInfo>)
    ensures |shown| <= |DummyPests|
    ensures forall i :: 0 <= i < |shown| ==> Matches(shown[i], searchQuery)
  {
    Filter(DummyPests, (pest: PestInfo) => Matches(pest, searchQuery))
  }

  /** A card is shown for exactly the listed pests that match, in the listed order, at most five. */
  lemma ShownIffMatches(searchQuery: string, pest: PestInfo)
    ensures pest in FilteredPests(searchQuery) <==> pest in DummyPests && Matches(pest, searchQuery)
    ensures IsSubsequence(FilteredPests(searchQuery), DummyPests)
    ensures |FilteredPests(searchQuery)| <= 5
  {
    FilterIsSubsequence(DummyPests, (pest: PestInfo) => Matches(pest, searchQuery));
  }

  /** An empty query shows every pest. */
  lemma EmptyQueryShowsAll()
    ensures FilteredPests("") == DummyPests
  {
    forall i | 0 <= i < |DummyPests|
      ensures Matches(DummyPests[i], "")
    {
      EverythingIncludesEmpty(Lower(DummyPests[i].name));
    }
    FilterKeepsAll(DummyPests, (pest: PestInfo) => Matches(pest, ""));
  }

  /** The "no results" card appears exactly when no listed pest matches. */
  lemma NoResultsIffNothingMatches(searchQuery: string)
    ensures |FilteredPests(searchQuery)| == 0 <==> forall pest :: pest in DummyPests ==> !Matches(pest, searchQuery)
  {
    var shown := FilteredPests(searchQuery);
    if |shown| > 0 {
      assert shown[0] in shown;
    }
  }

  /** Queries that differ only in case show the same list. */
  lemma CaseDoesNotMatter(q: string, q': string)
    requires Lower(q) == Lower(q')
    ensures FilteredPests(q) == FilteredPests(q')
  {
    FilterCongruent(DummyPests, (pest: PestInfo) => Matches(pest, q), (pest: PestInfo) => Matches(pest, q'));
  }

  /** Typing more into the query can only narrow the list. */
  lemma LongerQueryNarrows(q: string, q': string)
    requires Includes(q', q)
    ensures IsSubsequence(FilteredPests(q'), FilteredPests(q))
  {
    LowerKeepsIncludes(q', q);
    forall pest | pest in DummyPests && Matches(pest, q')
      ensures Matches(pest, q)
    {
      IncludesTransitive(Lower(pest.name), Lower(q'), Lower(q));
    }
    FilterMonotone(DummyPests, (pest: PestInfo) => Matches(pest, q'), (pest: PestInfo) => Matches(pest, q));
  }
}
