/**
 * The queue provider: the in-memory location list with its occupancy classifier
 * and demo-mode random walk, the user's virtual-queue tickets, and the
 * suggestion of a less crowded place.
 */
module QueueContext {
  import opened Wrappers
  import opened DocumentStore
  import Text
  import Seqs

  datatype LocationStatus = Safe | Busy | Crowded

  datatype Location = Location(
    id: string,
    name: string,
    kind: LocationType,
    currentOccupancy: int,
    maxCapacity: int,
    avgWaitTime: int,
    status: LocationStatus,
    position: Position)

  datatype TicketStatus = Active | Ready | Completed

  datatype Ticket = Ticket(
    id: string,
    locationId: string,
    locationName: string,
    positionInLine: int,
    estimatedTime: int,
    createdAt: Timestamp,
    status: TicketStatus)

  datatype Suggestion = Suggestion(message: string, location: Location)

  /** The provider's starting list, as the source lists it (statuses included). */
  function InitialLocations(): (r: seq<Location>)
    ensures |r| == 5 && LocationsValid(r)
    ensures forall i, j :: 0 <= i < j < |r| ==> r[i].id != r[j].id
  {
    [ Location("1", "Main Canteen", Canteen, 78, 100, 12, Busy, Position(30, 40)),
      Location("2", "Central Library", Library, 45, 150, 5, Safe, Position(60, 25)),
      Location("3", "Admin Office", Office, 92, 100, 25, Crowded, Position(45, 65)),
      Location("4", "Library Cafe", Cafe, 15, 50, 2, Safe, Position(75, 50)),
      Location("5", "Science Block Cafeteria", Canteen, 65, 80, 8, Busy, Position(20, 70)) ]
  }

  // ---------------------------------------------------------------- classifier

  /** The three tiers in order, for stating monotonicity. */
  function Tier(s: LocationStatus): nat {
    match s
    case Safe => 0
    case Busy => 1
    case Crowded => 2
  }

  /** `getStatusFromOccupancy`: thresholds at 50 and 80 percent. */
  function StatusFromOccupancy(percent: real): (s: LocationStatus)
    ensures s == Safe <==> percent < 50.0
    ensures s == Crowded <==> 80.0 <= percent
  {
    if percent < 50.0 then Safe
    else if percent < 80.0 then Busy
    else Crowded
  }

  /** `(occupancy / maxCapacity) * 100`, in exact arithmetic. */
  function OccupancyPercent(occupancy: int, maxCapacity: int): (p: real)
    requires maxCapacity > 0
    ensures p * maxCapacity as real == (occupancy * 100) as real
    ensures 0 <= occupancy <= maxCapacity ==> 0.0 <= p <= 100.0
  {
    var q := occupancy as real / maxCapacity as real;
    assert q * maxCapacity as real == occupancy as real;
    assert 0 <= occupancy <= maxCapacity ==> 0.0 <= q <= 1.0;
    q * 100.0
  }

  /** A higher percentage never gives a lower tier. */
  lemma StatusMonotone(p: real, q: real)
    requires p <= q
    ensures Tier(StatusFromOccupancy(p)) <= Tier(StatusFromOccupancy(q))
  {
  }

  /** The classifier on a location, restated over integers: safe below half, crowded from four fifths. */
  lemma StatusIntegerThresholds(occupancy: int, maxCapacity: int)
    requires maxCapacity > 0
    ensures StatusFromOccupancy(OccupancyPercent(occupancy, maxCapacity)) == Safe <==> 2 * occupancy < maxCapacity
    ensures StatusFromOccupancy(OccupancyPercent(occupancy, maxCapacity)) == Crowded <==> 5 * occupancy >= 4 * maxCapacity
  {
    PercentBelow(occupancy, maxCapacity, 50);
    PercentBelow(occupancy, maxCapacity, 80);
  }

  /** The percentage is below `t` exactly when `100 * occupancy < t * maxCapacity`. */
  lemma PercentBelow(occupancy: int, maxCapacity: int, t: int)
    requires maxCapacity > 0
    ensures OccupancyPercent(occupancy, maxCapacity) < t as real <==> occupancy * 100 < t * maxCapacity
  {
    var o, c := occupancy as real, maxCapacity as real;
    var q := o / c;
    assert q * c == o;
    ScaleLess(q * 100.0, t as real, c);
    assert (q * 100.0) * c == o * 100.0;
    assert (t as real) * c == (t * maxCapacity) as real;
    assert o * 100.0 == (occupancy * 100) as real;
  }

  lemma ScaleLess(p: real, t: real, c: real)
    requires c > 0.0
    ensures p < t <==> p * c < t * c
  {
    assert t * c - p * c == (t - p) * c;
    if p < t {
      assert (t - p) * c > 0.0;
    } else {
      assert (p - t) * c >= 0.0;
    }
  }

  /** The starting list is not consistent with the classifier: the last entry is stored busy but classifies as crowded. */
  lemma InitialStatusDisagrees()
    ensures InitialLocations()[4].status == Busy
    ensures StatusFromOccupancy(OccupancyPercent(InitialLocations()[4].currentOccupancy, InitialLocations()[4].maxCapacity)) == Crowded
  {
    StatusIntegerThresholds(65, 80);
  }

  // ---------------------------------------------------------------- demo mode

  function Max(a: int, b: int): int { if a < b then b else a }
  function Min(a: int, b: int): int { if a < b then a else b }

  /** `Math.floor(Math.random() * 30) - 15` for a random draw `roll` in [0, 1). */
  function OccupancyChange(roll: real): (change: int)
    requires 0.0 <= roll < 1.0
    ensures -15 <= change <= 14
  {
    (roll * 30.0).Floor - 15
  }

  /** `Math.floor(avgWaitTime + (Math.random() * 10 - 5))`, before the lower bound of 1 is applied. */
  function JitteredWait(avgWaitTime: int, roll: real): (w: int)
    requires 0.0 <= roll < 1.0
    ensures avgWaitTime - 5 <= w <= avgWaitTime + 4
  {
    (avgWaitTime as real + (roll * 10.0 - 5.0)).Floor
  }

  /**
   * One location after one demo tick, given the tick's two random draws:
   * occupancy in [10, 98] whatever the capacity, the walk step taken unless
   * clamped, a wait of at least one minute within five of the old one, a freshly
   * computed status, and the identity, capacity and position untouched.
   */
  function TickedLocation(loc: Location, occupancyRoll: real, waitRoll: real): (r: Location)
    requires loc.maxCapacity > 0
    requires 0.0 <= occupancyRoll < 1.0 && 0.0 <= waitRoll < 1.0
    ensures 10 <= r.currentOccupancy <= 98
    ensures 10 <= loc.currentOccupancy + OccupancyChange(occupancyRoll) <= 98 ==>
      r.currentOccupancy == loc.currentOccupancy + OccupancyChange(occupancyRoll)
    ensures loc.currentOccupancy + OccupancyChange(occupancyRoll) > 98 ==> r.currentOccupancy == 98
    ensures loc.currentOccupancy + OccupancyChange(occupancyRoll) < 10 ==> r.currentOccupancy == 10
    ensures r.avgWaitTime == Max(1, JitteredWait(loc.avgWaitTime, waitRoll)) >= 1
    ensures loc.avgWaitTime >= 6 ==> loc.avgWaitTime - 5 <= r.avgWaitTime <= loc.avgWaitTime + 4
    ensures r.id == loc.id && r.name == loc.name && r.kind == loc.kind
    ensures r.maxCapacity == loc.maxCapacity && r.position == loc.position
    ensures r.status == StatusFromOccupancy(OccupancyPercent(r.currentOccupancy, r.maxCapacity))
  {
    var newOccupancy := Max(10, Min(98, loc.currentOccupancy + OccupancyChange(occupancyRoll)));
    var newWaitTime := Max(1, JitteredWait(loc.avgWaitTime, waitRoll));
    loc.(currentOccupancy := newOccupancy,
         avgWaitTime := newWaitTime,
         status := StatusFromOccupancy(OccupancyPercent(newOccupancy, loc.maxCapacity)))
  }

  /** The clamp is to [10, 98], not to the capacity: a place of capacity 50 can be driven to 95. */
  lemma TickCanExceedCapacity()
    ensures var loc := Location("4", "Library Cafe", Cafe, 90, 50, 2, Crowded, Position(75, 50));
      TickedLocation(loc, 20.0 / 30.0, 0.5).currentOccupancy == 95 > loc.maxCapacity
  {
    assert ((20.0 / 30.0) * 30.0).Floor == 20;
  }

  /** The list after a tick: the same places in the same order, each ticked with its own draws. */
  function TickAll(locs: seq<Location>, occupancyRolls: seq<real>, waitRolls: seq<real>): (r: seq<Location>)
    requires |occupancyRolls| == |locs| && |waitRolls| == |locs|
    requires forall i :: 0 <= i < |locs| ==> locs[i].maxCapacity > 0
    requires forall i :: 0 <= i < |locs| ==> 0.0 <= occupancyRolls[i] < 1.0 && 0.0 <= waitRolls[i] < 1.0
    ensures |r| == |locs|
    ensures forall i :: 0 <= i < |locs| ==> r[i] == TickedLocation(locs[i], occupancyRolls[i], waitRolls[i])
  {
    seq(|locs|, i requires 0 <= i < |locs| => TickedLocation(locs[i], occupancyRolls[i], waitRolls[i]))
  }

  // ---------------------------------------------------------------- suggestion

  /** `((100 - percent) + (30 - avgWaitTime)) / 2`: higher is better. */
  function Score(loc: Location): real
    requires loc.maxCapacity > 0
  {
    ((100.0 - OccupancyPercent(loc.currentOccupancy, loc.maxCapacity)) + (30 - loc.avgWaitTime) as real) / 2.0
  }

  /**
   * The score rewards quiet and short waits: a place that is no fuller and waits
   * no longer scores at least as high, and strictly higher when it is emptier or
   * waits less.
   */
  lemma ScoreOrder(a: Location, b: Location)
    requires a.maxCapacity > 0 && b.maxCapacity > 0
    requires OccupancyPercent(a.currentOccupancy, a.maxCapacity) <= OccupancyPercent(b.currentOccupancy, b.maxCapacity)
    requires a.avgWaitTime <= b.avgWaitTime
    ensures Score(b) <= Score(a)
    ensures (OccupancyPercent(a.currentOccupancy, a.maxCapacity) < OccupancyPercent(b.currentOccupancy, b.maxCapacity)
             || a.avgWaitTime < b.avgWaitTime) ==> Score(b) < Score(a)
  {
  }

  predicate CapacitiesPositive(locs: seq<Location>) {
    forall i :: 0 <= i < |locs| ==> locs[i].maxCapacity > 0
  }

  function Scores(locs: seq<Location>): (r: seq<real>)
    requires CapacitiesPositive(locs)
    ensures |r| == |locs| && forall i :: 0 <= i < |locs| ==> r[i] == Score(locs[i])
  {
    seq(|locs|, i requires 0 <= i < |locs| => Score(locs[i]))
  }

  function Percents(locs: seq<Location>): (r: seq<real>)
    requires CapacitiesPositive(locs)
    ensures |r| == |locs| && forall i :: 0 <= i < |locs| ==> r[i] == OccupancyPercent(locs[i].currentOccupancy, locs[i].maxCapacity)
  {
    seq(|locs|, i requires 0 <= i < |locs| => OccupancyPercent(locs[i].currentOccupancy, locs[i].maxCapacity))
  }

  /** The position the best-score `reduce` ends on. */
  function BestIndex(locs: seq<Location>): (k: nat)
    requires |locs| > 0 && CapacitiesPositive(locs)
    ensures k < |locs|
    ensures forall j :: 0 <= j < |locs| ==> Score(locs[j]) <= Score(locs[k])
    ensures forall j :: 0 <= j < k ==> Score(locs[j]) < Score(locs[k])
  {
    var k := Seqs.ArgMaxFirst(Scores(locs));
    assert Scores(locs)[k] == Score(locs[k]);
    assert forall j :: 0 <= j < |locs| ==> Scores(locs)[j] == Score(locs[j]);
    k
  }

  /** The position the highest-percent `reduce` ends on. */
  function WorstIndex(locs: seq<Location>): (k: nat)
    requires |locs| > 0 && CapacitiesPositive(locs)
    ensures k < |locs|
    ensures forall j :: 0 <= j < |locs| ==>
      OccupancyPercent(locs[j].currentOccupancy, locs[j].maxCapacity) <= OccupancyPercent(locs[k].currentOccupancy, locs[k].maxCapacity)
    ensures forall j :: 0 <= j < k ==>
      OccupancyPercent(locs[j].currentOccupancy, locs[j].maxCapacity) < OccupancyPercent(locs[k].currentOccupancy, locs[k].maxCapacity)
  {
    var k := Seqs.ArgMaxFirst(Percents(locs));
    assert forall j :: 0 <= j < |locs| ==> Percents(locs)[j] == OccupancyPercent(locs[j].currentOccupancy, locs[j].maxCapacity);
    k
  }

  /** The word the suggestion uses for the best place's stored status. */
  function CrowdWord(status: LocationStatus): string {
    if status == Safe then "empty" else "less crowded"
  }

  function SuggestionMessage(name: string, status: LocationStatus, minutes: nat): string {
    name + " is currently " + CrowdWord(status) + ". Head there to save " + Text.Decimal(minutes) + " mins!"
  }

  /** `getAISuggestion`. The list must be non-empty: `reduce` is called without an initial value. */
  function AISuggestion(locs: seq<Location>): (r: Option<Suggestion>)
    requires |locs| > 0 && CapacitiesPositive(locs)
    ensures r.Some? ==> r.value.location in locs
    ensures r.Some? ==> exists j :: 0 <= j < |locs| && locs[j].avgWaitTime > r.value.location.avgWaitTime + 5
  {
    var best := locs[BestIndex(locs)];
    var worst := locs[WorstIndex(locs)];
    var timeSaved := worst.avgWaitTime - best.avgWaitTime;
    if timeSaved > 5 then Some(Suggestion(SuggestionMessage(best.name, best.status, timeSaved), best))
    else None
  }

  /**
   * A suggestion names the first place of best score, is offered exactly when the
   * most crowded place (the first of highest percentage) waits more than five
   * minutes longer, is then a different place from that one, and says "empty"
   * exactly when its stored status is safe.
   */
  lemma SuggestionFacts(locs: seq<Location>)
    requires |locs| > 0 && CapacitiesPositive(locs)
    ensures var r := AISuggestion(locs);
      var w := WorstIndex(locs);
      && (r.Some? <==> locs[w].avgWaitTime - locs[BestIndex(locs)].avgWaitTime > 5)
      && (r.Some? ==>
            && (forall j :: 0 <= j < |locs| ==> Score(locs[j]) <= Score(r.value.location))
            && (forall j :: 0 <= j < BestIndex(locs) ==> Score(locs[j]) < Score(r.value.location))
            && r.value.location == locs[BestIndex(locs)]
            && BestIndex(locs) != w
            && r.value.location != locs[w]
            && (forall j :: 0 <= j < |locs| ==>
                  OccupancyPercent(locs[j].currentOccupancy, locs[j].maxCapacity)
                  <= OccupancyPercent(locs[w].currentOccupancy, locs[w].maxCapacity))
            && r.value.message == SuggestionMessage(locs[BestIndex(locs)].name, locs[BestIndex(locs)].status,
                                                    locs[w].avgWaitTime - locs[BestIndex(locs)].avgWaitTime))
  {
    var b := BestIndex(locs);
    assert Scores(locs)[b] == Score(locs[b]);
    assert forall j :: 0 <= j < |locs| ==> Scores(locs)[j] <= Scores(locs)[b];
    assert forall j :: 0 <= j < |locs| ==> Percents(locs)[j] <= Percents(locs)[WorstIndex(locs)];
  }

  /** With a single place the best and the most crowded coincide, so nothing is suggested. */
  lemma SingleLocationNoSuggestion(loc: Location)
    requires loc.maxCapacity > 0
    ensures AISuggestion([loc]) == None
  {
  }

  /** Two places: 10/100 waiting 2 minutes against 95/100 waiting 25 gives a 23-minute suggestion of the first. */
  lemma SuggestionScenario()
    ensures var a := Location("a", "Quiet Hall", Library, 10, 100, 2, Safe, Position(0, 0));
      var b := Location("b", "Busy Hall", Canteen, 95, 100, 25, Crowded, Position(0, 0));
      && AISuggestion([a, b]) == Some(Suggestion(SuggestionMessage("Quiet Hall", Safe, 23), a))
      && CrowdWord(Safe) == "empty"
      && StatusFromOccupancy(OccupancyPercent(10, 100)) == Safe
      && StatusFromOccupancy(OccupancyPercent(95, 100)) == Crowded
  {
    var a := Location("a", "Quiet Hall", Library, 10, 100, 2, Safe, Position(0, 0));
    var b := Location("b", "Busy Hall", Canteen, 95, 100, 25, Crowded, Position(0, 0));
    var locs := [a, b];
    assert Score(a) == 59.0 && Score(b) == 5.0;
    Seqs.ArgMaxFirstUnique(Scores(locs), 0);
    Seqs.ArgMaxFirstUnique(Percents(locs), 1);
    assert Text.Decimal(23) == "23";
    assert AISuggestion(locs).Some?;
    assert AISuggestion(locs).value.location == a;
  }

  // ---------------------------------------------------------------- tickets

  /** `tickets.filter(t => t.id !== ticketId)`. */
  function WithoutTicket(tickets: seq<Ticket>, ticketId: string): (r: seq<Ticket>)
    ensures forall i :: 0 <= i < |r| ==> r[i] in tickets && r[i].id != ticketId
    ensures forall i :: 0 <= i < |tickets| && tickets[i].id != ticketId ==> tickets[i] in r
    ensures multiset(r) <= multiset(tickets)
  {
    Seqs.FilterSubMultiset(tickets, (t: Ticket) => t.id != ticketId);
    Seqs.Filter(tickets, (t: Ticket) => t.id != ticketId)
  }

  /** Cancelling removes exactly the tickets with that id and keeps the others, in order. */
  lemma CancelRemovesExactly(tickets: seq<Ticket>, ticketId: string, other: seq<Ticket>)
    ensures forall t :: t in WithoutTicket(tickets, ticketId) <==> t in tickets && t.id != ticketId
    ensures WithoutTicket(tickets + other, ticketId) == WithoutTicket(tickets, ticketId) + WithoutTicket(other, ticketId)
  {
    Seqs.FilterAppend(tickets, other, (t: Ticket) => t.id != ticketId);
    var r := WithoutTicket(tickets, ticketId);
    forall t | t in tickets && t.id != ticketId ensures t in r {
      var i :| 0 <= i < |tickets| && tickets[i] == t;
    }
    forall t | t in r ensures t in tickets && t.id != ticketId {
      var i :| 0 <= i < |r| && r[i] == t;
    }
  }

  /** Cancelling an id no ticket carries changes nothing. */
  lemma CancelAbsentIsNoop(tickets: seq<Ticket>, ticketId: string)
    requires forall i :: 0 <= i < |tickets| ==> tickets[i].id != ticketId
    ensures WithoutTicket(tickets, ticketId) == tickets
  {
    Seqs.FilterKeepsAll(tickets, (t: Ticket) => t.id != ticketId);
  }

  /** Cancelling twice is cancelling once. */
  lemma CancelIdempotent(tickets: seq<Ticket>, ticketId: string)
    ensures WithoutTicket(WithoutTicket(tickets, ticketId), ticketId) == WithoutTicket(tickets, ticketId)
  {
    Seqs.FilterIdempotent(tickets, (t: Ticket) => t.id != ticketId);
  }

  /** `locations.find(l => l.id === locationId)`, as a position. */
  function FindLocation(locs: seq<Location>, locationId: string): (r: Option<nat>)
    ensures r.Some? ==> r.value < |locs| && locs[r.value].id == locationId
                        && forall j :: 0 <= j < r.value ==> locs[j].id != locationId
    ensures r.None? ==> forall j :: 0 <= j < |locs| ==> locs[j].id != locationId
  {
    Seqs.FirstIndex(locs, (l: Location) => l.id == locationId)
  }

  /** `Math.floor(Math.random() * 10) + 1` for a random draw in [0, 1). */
  function PositionInLine(roll: real): (p: int)
    requires 0.0 <= roll < 1.0
    ensures 1 <= p <= 10
  {
    (roll * 10.0).Floor + 1
  }

  // ---------------------------------------------------------------- provider

  /** What the provider keeps true of its list: at least one place, positive capacities, waits of a minute or more. */
  ghost predicate LocationsValid(locs: seq<Location>) {
    && |locs| > 0
    && CapacitiesPositive(locs)
    && forall i :: 0 <= i < |locs| ==> locs[i].avgWaitTime >= 1
  }

  class QueueProvider {
    var locations: seq<Location>
    var tickets: seq<Ticket>
    var demoMode: bool

    ghost predicate Valid()
      reads this
    {
      LocationsValid(locations)
    }

    constructor ()
      ensures Valid()
      ensures locations == InitialLocations() && tickets == [] && !demoMode
    {
      locations := InitialLocations();
      tickets := [];
      demoMode := false;
    }

    method SetDemoMode(mode: bool)
      modifies this
      ensures demoMode == mode
      ensures locations == old(locations) && tickets == old(tickets)
    {
      demoMode := mode;
    }

    /**
     * One firing of the demo interval. The interval exists only while demo mode
     * is on, so with demo mode off nothing changes.
     */
    method DemoTick(occupancyRolls: seq<real>, waitRolls: seq<real>)
      requires Valid()
      requires |occupancyRolls| == |locations| && |waitRolls| == |locations|
      requires forall i :: 0 <= i < |locations| ==> 0.0 <= occupancyRolls[i] < 1.0 && 0.0 <= waitRolls[i] < 1.0
      modifies this
      ensures Valid()
      ensures tickets == old(tickets) && demoMode == old(demoMode)
      ensures !demoMode ==> locations == old(locations)
      ensures demoMode ==> locations == TickAll(old(locations), occupancyRolls, waitRolls)
    {
      if !demoMode {
        return;
      }
      locations := TickAll(locations, occupancyRolls, waitRolls);
    }

    /**
     * `joinQueue`: fails with "Location not found" for an unknown id; otherwise
     * appends one active ticket for that place, with the place's name and current
     * wait, a line position in 1..10, the id `TKT-<now>` from `Date.now()` and
     * the creation time `createdAt` from the separate `new Date()` reading.
     */
    method JoinQueue(locationId: string, now: Timestamp, createdAt: Timestamp, positionRoll: real)
      returns (r: Result<Ticket, string>)
      requires Valid()
      requires 0.0 <= positionRoll < 1.0
      modifies this
      ensures Valid()
      ensures locations == old(locations) && demoMode == old(demoMode)
      ensures r.Failure? <==> FindLocation(locations, locationId).None?
      ensures r.Failure? ==> r.error == "Location not found" && tickets == old(tickets)
      ensures r.Success? ==>
        var loc := locations[FindLocation(locations, locationId).value];
        && tickets == old(tickets) + [r.value]
        && r.value.id == "TKT-" + Text.Decimal(now)
        && r.value.locationId == locationId == loc.id
        && r.value.locationName == loc.name
        && r.value.estimatedTime == loc.avgWaitTime >= 1
        && 1 <= r.value.positionInLine <= 10
        && r.value.createdAt == createdAt
        && r.value.status == TicketStatus.Active
    {
      var found := FindLocation(locations, locationId);
      if found.None? {
        return Failure("Location not found");
      }
      var location := locations[found.value];
      var ticket := Ticket("TKT-" + Text.Decimal(now), locationId, location.name,
                           PositionInLine(positionRoll), location.avgWaitTime, createdAt, TicketStatus.Active);
      tickets := tickets + [ticket];
      r := Success(ticket);
    }

    /** `cancelTicket`: drop every ticket with this id. */
    method CancelTicket(ticketId: string)
      modifies this
      ensures tickets == WithoutTicket(old(tickets), ticketId)
      ensures locations == old(locations) && demoMode == old(demoMode)
    {
      tickets := WithoutTicket(tickets, ticketId);
    }

    /** `getAISuggestion` on the provider's current list. */
    function GetAISuggestion(): (r: Option<Suggestion>)
      reads this
      requires Valid()
      ensures r.Some? ==> r.value.location in locations
      ensures r.Some? ==> exists j :: 0 <= j < |locations| && locations[j].avgWaitTime > r.value.location.avgWaitTime + 5
    {
      AISuggestion(locations)
    }
  }
}
