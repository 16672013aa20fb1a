/** The map page: the search box over location names and the marker click. */
module MapView {
  import opened Wrappers
  import opened Text
  import opened Seqs
  import QueueContext

  type Location = QueueContext.Location

  predicate Matches(l: Location, query: string) {
    Contains(Lower(l.name), Lower(query))
  }

  /** `locations.filter(loc => loc.name.toLowerCase().includes(searchQuery.toLowerCase()))`. */
  function SearchResults(locs: seq<Location>, query: string): (r: seq<Location>)
    ensures forall i :: 0 <= i < |r| ==> r[i] in locs && Matches(r[i], query)
    ensures forall i :: 0 <= i < |locs| && Matches(locs[i], query) ==> locs[i] in r
    ensures multiset(r) <= multiset(locs)
  {
    FilterSubMultiset(locs, (l: Location) => Matches(l, query));
    Filter(locs, (l: Location) => Matches(l, query))
  }

  /**
   * The results keep the list's order: searching a list in two parts is searching
   * each part, and a single place is shown exactly when it matches. Together these
   * determine the results of every list.
   */
  lemma SearchKeepsOrder(before: seq<Location>, after: seq<Location>, l: Location, query: string)
    ensures SearchResults(before + after, query) == SearchResults(before, query) + SearchResults(after, query)
    ensures SearchResults([l], query) == if Matches(l, query) then [l] else []
  {
    FilterAppend(before, after, (x: Location) => Matches(x, query));
    FilterSingleton(l, (x: Location) => Matches(x, query));
  }

  /** An empty search box shows every place, in order. */
  lemma EmptyQueryShowsAll(locs: seq<Location>)
    ensures SearchResults(locs, "") == locs
  {
    forall i | 0 <= i < |locs| ensures Matches(locs[i], "") {
      ContainsEmpty(Lower(locs[i].name));
    }
    FilterKeepsAll(locs, (l: Location) => Matches(l, ""));
  }

  /** The case of the query's letters does not matter. */
  lemma QueryCaseIrrelevant(locs: seq<Location>, query: string)
    ensures SearchResults(locs, Lower(query)) == SearchResults(locs, query)
  {
    LowerIdempotent(query);
    FilterCongruent(locs, (l: Location) => Matches(l, Lower(query)), (l: Location) => Matches(l, query));
  }

  class MapPage {
    var selectedLocation: Option<Location>
    var drawerOpen: bool
    var searchQuery: string

    constructor ()
      ensures selectedLocation == None && !drawerOpen && searchQuery == ""
    {
      selectedLocation, drawerOpen, searchQuery := None, false, "";
    }

    /** `handleMarkerClick`: select the marker's place and open the drawer on it. */
    method HandleMarkerClick(location: Location)
      modifies this
      ensures selectedLocation == Some(location) && drawerOpen && searchQuery == old(searchQuery)
    {
      selectedLocation := Some(location);
      drawerOpen := true;
    }

    method SetSearchQuery(query: string)
      modifies this
      ensures searchQuery == query && selectedLocation == old(selectedLocation) && drawerOpen == old(drawerOpen)
    {
      searchQuery := query;
    }
  }
}
