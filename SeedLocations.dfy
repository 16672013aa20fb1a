/**
 * The seeding routine: a fixed table of five places written, one whole
 * document per entry, over the `locations` collection.
 */
module SeedLocations {
  import opened Wrappers
  import opened DocumentStore
  import QrScannerPage

  datatype SeedEntry = SeedEntry(id: string, name: string, kind: LocationType, currentOccupancy: int,
                                 maxCapacity: int, avgWaitTime: int, position: Position)

  function SeedTable(): seq<SeedEntry> {
    [ SeedEntry("main-canteen", "Main Canteen", Canteen, 78, 100, 12, Position(30, 40)),
      SeedEntry("central-library", "Central Library", Library, 45, 150, 5, Position(60, 25)),
      SeedEntry("admin-office", "Admin Office", Office, 92, 100, 25, Position(45, 65)),
      SeedEntry("library-cafe", "Library Cafe", Cafe, 15, 50, 2, Position(75, 50)),
      SeedEntry("science-cafeteria", "Science Block Cafeteria", Canteen, 65, 80, 8, Position(20, 70)) ]
  }

  /** The table is sound: distinct ids, positive capacities, occupancy within capacity. */
  lemma SeedTableFacts()
    ensures |SeedTable()| == 5
    ensures forall i, j :: 0 <= i < j < |SeedTable()| ==> SeedTable()[i].id != SeedTable()[j].id
    ensures forall i :: 0 <= i < |SeedTable()| ==>
      SeedTable()[i].maxCapacity > 0 && 0 <= SeedTable()[i].currentOccupancy <= SeedTable()[i].maxCapacity
  {
    var t := SeedTable();
    assert t[0].id[0] == 'm' && t[1].id[0] == 'c' && t[2].id[0] == 'a' && t[3].id[0] == 'l' && t[4].id[0] == 's';
  }

  /**
   * `{ ...location, updatedAt: new Date() }` written with `setDoc`: the entry's
   * fields, its id as a data field, the write time, and nothing else.
   */
  function SeedDoc(e: SeedEntry, at: Timestamp): (d: LocationDoc)
    ensures d.storedId == Some(e.id) && d.name == e.name && d.kind == e.kind
    ensures d.currentOccupancy == e.currentOccupancy && d.maxCapacity == e.maxCapacity
    ensures d.avgWaitTime == e.avgWaitTime && d.position == e.position && d.updatedAt == Some(at)
    ensures d.entryQRCode == None && d.exitQRCode == None && d.createdAt == None
  {
    LocationDoc(Some(e.id), e.name, e.kind, e.maxCapacity, e.currentOccupancy, e.avgWaitTime, e.position,
                None, None, None, Some(at))
  }

  /** The collection after the first `k` entries have been written, the i-th at `times[i]`. */
  function SeedPrefix(m: map<string, LocationDoc>, times: seq<Timestamp>, k: nat): map<string, LocationDoc>
    requires k <= |SeedTable()| && |times| == |SeedTable()|
  {
    if k == 0 then m
    else SeedPrefix(m, times, k - 1)[SeedTable()[k - 1].id := SeedDoc(SeedTable()[k - 1], times[k - 1])]
  }

  /** After `k` writes, each of the first `k` ids holds its seed document and every other key is untouched. */
  lemma {:induction false} SeedPrefixContents(m: map<string, LocationDoc>, times: seq<Timestamp>, k: nat)
    requires k <= |SeedTable()| && |times| == |SeedTable()|
    ensures forall i :: 0 <= i < k ==>
      SeedTable()[i].id in SeedPrefix(m, times, k) && SeedPrefix(m, times, k)[SeedTable()[i].id] == SeedDoc(SeedTable()[i], times[i])
    ensures forall id :: (forall i :: 0 <= i < k ==> SeedTable()[i].id != id) ==>
      (id in SeedPrefix(m, times, k) <==> id in m) && (id in m ==> SeedPrefix(m, times, k)[id] == m[id])
  {
    if k > 0 {
      SeedPrefixContents(m, times, k - 1);
      SeedTableFacts();
    }
  }

  /** Seeding the whole table twice leaves what seeding once leaves, apart from the write times. */
  lemma SeedTwice(m: map<string, LocationDoc>, t1: seq<Timestamp>, t2: seq<Timestamp>)
    requires |t1| == |SeedTable()| && |t2| == |SeedTable()|
    ensures SeedPrefix(SeedPrefix(m, t1, |SeedTable()|), t2, |SeedTable()|) == SeedPrefix(m, t2, |SeedTable()|)
  {
    var n := |SeedTable()|;
    var once := SeedPrefix(m, t1, n);
    var twice := SeedPrefix(once, t2, n);
    var direct := SeedPrefix(m, t2, n);
    SeedPrefixContents(m, t1, n);
    SeedPrefixContents(once, t2, n);
    SeedPrefixContents(m, t2, n);
    forall id ensures (id in twice <==> id in direct) && (id in twice ==> twice[id] == direct[id]) {
      if i :| 0 <= i < n && SeedTable()[i].id == id {
        assert twice[id] == SeedDoc(SeedTable()[i], t2[i]) == direct[id];
      }
    }
    assert twice == direct;
  }

  /** A seeded place carries no entry token, so the scanner refuses every code there. */
  lemma SeededRejectsEveryCode(e: SeedEntry, at: Timestamp, code: string)
    ensures !QrScannerPage.TokenAccepted(SeedDoc(e, at), code)
  {
  }

  /**
   * `seedLocations`: write the entries in order, the i-th at `times[i]`. When
   * the write of entry `failAt` throws, the loop stops there and the writes
   * before it stay.
   */
  method Seed(db: Database, times: seq<Timestamp>, failAt: Option<nat>) returns (ok: bool)
    requires |times| == |SeedTable()|
    modifies db
    ensures db.checkins == old(db.checkins) && db.users == old(db.users) && db.admins == old(db.admins)
    ensures ok <==> failAt.None? || failAt.value >= |SeedTable()|
    ensures ok ==> db.locations == SeedPrefix(old(db.locations), times, |SeedTable()|)
    ensures !ok ==> db.locations == SeedPrefix(old(db.locations), times, failAt.value)
  {
    var table := SeedTable();
    for i := 0 to |table|
      invariant db.locations == SeedPrefix(old(db.locations), times, i)
      invariant failAt.Some? ==> i <= failAt.value
      invariant db.checkins == old(db.checkins) && db.users == old(db.users) && db.admins == old(db.admins)
    {
      if failAt == Some(i) {
        return false;
      }
      var location := table[i];
      db.locations := db.locations[location.id := SeedDoc(location, times[i])];
    }
    return true;
  }
}
