/** The home page: the time-saved headline, the first crowd cards, the card click. */
module Dashboard {
  import opened Wrappers
  import opened Seqs
  import QueueContext

  type Location = QueueContext.Location

  predicate IsSafe(l: Location) {
    l.status == QueueContext.Safe
  }

  /** `locations.reduce((acc, loc) => loc.status === 'safe' ? acc + loc.avgWaitTime : acc, 0)`, folded from the left. */
  function TotalTimeSaved(locs: seq<Location>): int
    decreases |locs|
  {
    if locs == [] then 0
    else
      var acc := TotalTimeSaved(locs[..|locs| - 1]);
      var loc := locs[|locs| - 1];
      if IsSafe(loc) then acc + loc.avgWaitTime else acc
  }

  function SumWaits(locs: seq<Location>): int
    decreases |locs|
  {
    if locs == [] then 0 else locs[0].avgWaitTime + SumWaits(locs[1..])
  }

  lemma {:induction false} SumWaitsAppend(a: seq<Location>, b: seq<Location>)
    ensures SumWaits(a + b) == SumWaits(a) + SumWaits(b)
  {
    if a == [] {
      assert a + b == b;
    } else {
      assert (a + b)[1..] == a[1..] + b;
      SumWaitsAppend(a[1..], b);
    }
  }

  /** The headline total is the sum of the waits of the safe places; the others count for nothing. */
  lemma {:induction false} TotalIsSumOfSafeWaits(locs: seq<Location>)
    ensures TotalTimeSaved(locs) == SumWaits(Filter(locs, (l: Location) => IsSafe(l)))
    decreases |locs|
  {
    if locs != [] {
      var init, last := locs[..|locs| - 1], locs[|locs| - 1];
      var safe := (l: Location) => IsSafe(l);
      TotalIsSumOfSafeWaits(init);
      assert locs == init + [last];
      FilterAppend(init, [last], safe);
      FilterSingleton(last, safe);
      SumWaitsAppend(Filter(init, safe), Filter([last], safe));
      assert SumWaits([last]) == last.avgWaitTime by {
        assert [last][1..] == [];
      }
    }
  }

  /** `Math.max(15, totalTimeSaved)`. */
  function DisplayedSavings(locs: seq<Location>): (m: int)
    ensures m >= 15 && m >= TotalTimeSaved(locs)
    ensures m == 15 || m == TotalTimeSaved(locs)
  {
    var total := TotalTimeSaved(locs);
    if total > 15 then total else 15
  }

  lemma NoPlacesShowsFifteen()
    ensures DisplayedSavings([]) == 15
  {
  }

  /** `locations.slice(0, 3)`. */
  function FirstCards(locs: seq<Location>): (r: seq<Location>)
    ensures |r| == if |locs| < 3 then |locs| else 3
    ensures forall i :: 0 <= i < |r| ==> r[i] == locs[i]
  {
    if |locs| < 3 then locs else locs[..3]
  }

  class DashboardPage {
    var selectedLocation: Option<Location>
    var drawerOpen: bool

    constructor ()
      ensures selectedLocation == None && !drawerOpen
    {
      selectedLocation, drawerOpen := None, false;
    }

    /** `handleCardClick`: select the card's place and open the drawer on it. */
    method HandleCardClick(location: Location)
      modifies this
      ensures selectedLocation == Some(location) && drawerOpen
    {
      selectedLocation := Some(location);
      drawerOpen := true;
    }
  }
}
