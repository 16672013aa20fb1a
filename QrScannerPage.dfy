/**
 * The QR scanner page: parsing of the entry payload with the page's regular
 * expression, and the check-in sequence of guards and writes in `handleScan`.
 */
module QrScannerPage {
  import opened Wrappers
  import opened DocumentStore
  import opened Text
  import QueueContext
  import AuthContext

  const Scheme: string := "smartqueue://scan/"
  const EntrySegment: string := "/entry/"

  datatype EntryPayload = EntryPayload(locationId: string, code: string)

  /** Length of the longest run of characters other than '/' starting at `i` (what `[^\/]+` can span). */
  function NonSlashRun(s: string, i: nat): (n: nat)
    requires i <= |s|
    ensures i + n <= |s|
    ensures forall k :: i <= k < i + n ==> s[k] != '/'
    ensures i + n == |s| || s[i + n] == '/'
    decreases |s| - i
  {
    if i < |s| && s[i] != '/' then 1 + NonSlashRun(s, i + 1) else 0
  }

  /** Length of the longest run of non-line-terminators starting at `i` (what `.+` can span). */
  function LineRun(s: string, i: nat): (n: nat)
    requires i <= |s|
    ensures i + n <= |s|
    ensures forall k :: i <= k < i + n ==> !IsLineTerminator(s[k])
    ensures i + n == |s| || IsLineTerminator(s[i + n])
    decreases |s| - i
  {
    if i < |s| && !IsLineTerminator(s[i]) then 1 + LineRun(s, i + 1) else 0
  }

  /**
   * The match of `smartqueue:\/\/scan\/([^\/]+)\/entry\/(.+)` that starts at `i`.
   * The first group cannot stop short of the run of non-slashes, because the
   * literal after it begins with '/'; the second group is greedy and nothing
   * follows it.
   */
  function MatchAt(s: string, i: nat): (r: Option<EntryPayload>)
    requires i <= |s|
    ensures !OccursAt(s, Scheme, i) ==> r.None?
    ensures r.Some? ==>
      var id, code := r.value.locationId, r.value.code;
      var j := i + |Scheme|;
      var k := j + |id| + |EntrySegment|;
      && OccursAt(s, Scheme, i)
      && |id| > 0 && (forall n :: 0 <= n < |id| ==> id[n] != '/')
      && |code| > 0 && (forall n :: 0 <= n < |code| ==> !IsLineTerminator(code[n]))
      && k + |code| <= |s|
      && s[j..j + |id|] == id && OccursAt(s, EntrySegment, j + |id|) && s[k..k + |code|] == code
      && (k + |code| == |s| || IsLineTerminator(s[k + |code|]))
  {
    if !OccursAt(s, Scheme, i) then None
    else
      var j := i + |Scheme|;
      var n := NonSlashRun(s, j);
      if n == 0 || !OccursAt(s, EntrySegment, j + n) then None
      else
        var k := j + n + |EntrySegment|;
        var m := LineRun(s, k);
        if m == 0 then None else Some(EntryPayload(s[j..j + n], s[k..k + m]))
  }

  /** Index of the leftmost match at or after `i`, as `String.prototype.match` searches. */
  function FirstMatch(s: string, i: nat): (r: Option<nat>)
    requires i <= |s|
    ensures r.None? ==> forall j :: i <= j <= |s| ==> MatchAt(s, j).None?
    ensures r.Some? ==> i <= r.value <= |s| && MatchAt(s, r.value).Some?
    ensures r.Some? ==> forall j :: i <= j < r.value ==> MatchAt(s, j).None?
    decreases |s| - i
  {
    if MatchAt(s, i).Some? then Some(i)
    else if i == |s| then None
    else FirstMatch(s, i + 1)
  }

  /** `decodedText.match(...)` reduced to its two groups. */
  function ParseEntryPayload(s: string): Option<EntryPayload> {
    var r := FirstMatch(s, 0);
    if r.None? then None else MatchAt(s, r.value)
  }

  /**
   * The payload is the leftmost match: there is none exactly when no position
   * matches, and otherwise it is the match at a position before which none starts.
   */
  lemma ParseIsLeftmostMatch(s: string)
    ensures ParseEntryPayload(s).None? <==> forall j :: 0 <= j <= |s| ==> MatchAt(s, j).None?
    ensures ParseEntryPayload(s).Some? ==>
      exists j :: 0 <= j <= |s| && MatchAt(s, j) == ParseEntryPayload(s) && forall i :: 0 <= i < j ==> MatchAt(s, i).None?
  {
    var r := FirstMatch(s, 0);
    if r.Some? {
      assert MatchAt(s, r.value) == ParseEntryPayload(s);
    }
  }

  /** The run functions are determined by their contracts: a run ending at a stopper has exactly that length. */
  lemma NonSlashRunIs(s: string, i: nat, n: nat)
    requires i + n <= |s|
    requires forall k :: i <= k < i + n ==> s[k] != '/'
    requires i + n == |s| || s[i + n] == '/'
    ensures NonSlashRun(s, i) == n
  {
  }

  lemma LineRunIs(s: string, i: nat, n: nat)
    requires i + n <= |s|
    requires forall k :: i <= k < i + n ==> !IsLineTerminator(s[k])
    requires i + n == |s| || IsLineTerminator(s[i + n])
    ensures LineRun(s, i) == n
  {
  }

  /**
   * The payload is found wherever it sits after text without the letter 's', and
   * the code ends at the first line break: `prefix + url + rest` parses to the id
   * and code the url was built from.
   */
  lemma {:induction false} ParseEmbeddedUrl(prefix: string, id: string, code: string, rest: string)
    requires forall i :: 0 <= i < |prefix| ==> prefix[i] != 's'
    requires |id| > 0 && forall i :: 0 <= i < |id| ==> id[i] != '/'
    requires |code| > 0 && forall i :: 0 <= i < |code| ==> !IsLineTerminator(code[i])
    requires rest == [] || IsLineTerminator(rest[0])
    ensures ParseEntryPayload(prefix + Scheme + id + EntrySegment + code + rest) == Some(EntryPayload(id, code))
  {
    var s0 := prefix + Scheme;
    var s1 := s0 + id;
    var s2 := s1 + EntrySegment;
    var s3 := s2 + code;
    var s := s3 + rest;
    var p := |prefix|;
    var j := p + |Scheme|;
    var k := j + |id| + |EntrySegment|;
    assert s[k..k + |code|] == code by {
      SliceOfAppend(s3, rest, k, k + |code|);
      TailOfAppend(s2, code);
    }
    assert s[j + |id|..k] == EntrySegment by {
      SliceOfAppend(s3, rest, j + |id|, k);
      SliceOfAppend(s2, code, j + |id|, k);
      TailOfAppend(s1, EntrySegment);
    }
    assert s[j..j + |id|] == id by {
      SliceOfAppend(s3, rest, j, j + |id|);
      SliceOfAppend(s2, code, j, j + |id|);
      SliceOfAppend(s1, EntrySegment, j, j + |id|);
      TailOfAppend(s0, id);
    }
    assert s[p..j] == Scheme by {
      SliceOfAppend(s3, rest, p, j);
      SliceOfAppend(s2, code, p, j);
      SliceOfAppend(s1, EntrySegment, p, j);
      SliceOfAppend(s0, id, p, j);
      TailOfAppend(prefix, Scheme);
    }
    assert k + |code| == |s| || IsLineTerminator(s[k + |code|]) by {
      if rest != [] { assert s[k + |code|] == rest[0]; }
    }
    UrlMatchAt(s, p, id, code);
    SliceOfAppend(s3, rest, 0, p);
    SliceOfAppend(s2, code, 0, p);
    SliceOfAppend(s1, EntrySegment, 0, p);
    SliceOfAppend(s0, id, 0, p);
    SliceOfAppend(prefix, Scheme, 0, p);
    NoMatchWithoutS(s, p);
    MatchBeforeIsSearch(s, p);
  }

  /** No match can start at a character other than the scheme's first letter. */
  lemma NoMatchWithoutS(s: string, p: nat)
    requires p <= |s|
    requires forall i :: 0 <= i < p ==> s[..p][i] != 's'
    ensures forall i :: 0 <= i < p ==> MatchAt(s, i).None?
  {
    forall i | 0 <= i < p ensures MatchAt(s, i).None? {
      assert s[i] == s[..p][i];
      assert Scheme[0] == 's';
    }
  }

  lemma SliceOfAppend(a: string, b: string, i: nat, j: nat)
    requires i <= j <= |a|
    ensures (a + b)[i..j] == a[i..j]
  {
  }

  lemma TailOfAppend(a: string, b: string)
    ensures (a + b)[|a|..|a| + |b|] == b
  {
  }

  /** The matcher's view of one embedded url: where its pieces sit in `s`, it matches at `p`. */
  lemma UrlMatchAt(s: string, p: nat, id: string, code: string)
    requires |id| > 0 && forall i :: 0 <= i < |id| ==> id[i] != '/'
    requires |code| > 0 && forall i :: 0 <= i < |code| ==> !IsLineTerminator(code[i])
    requires p + |Scheme| + |id| + |EntrySegment| + |code| <= |s|
    requires s[p..p + |Scheme|] == Scheme
    requires s[p + |Scheme|..p + |Scheme| + |id|] == id
    requires s[p + |Scheme| + |id|..p + |Scheme| + |id| + |EntrySegment|] == EntrySegment
    requires s[p + |Scheme| + |id| + |EntrySegment|..p + |Scheme| + |id| + |EntrySegment| + |code|] == code
    requires var e := p + |Scheme| + |id| + |EntrySegment| + |code|; e == |s| || IsLineTerminator(s[e])
    ensures MatchAt(s, p) == Some(EntryPayload(id, code))
  {
    var j := p + |Scheme|;
    var k := j + |id| + |EntrySegment|;
    assert OccursAt(s, Scheme, p);
    forall i | j <= i < j + |id| ensures s[i] != '/' {
      assert s[i] == s[j..j + |id|][i - j];
    }
    assert s[j + |id|] == s[j + |id|..k][0];
    NonSlashRunIs(s, j, |id|);
    assert OccursAt(s, EntrySegment, j + |id|);
    forall i | k <= i < k + |code| ensures !IsLineTerminator(s[i]) {
      assert s[i] == s[k..k + |code|][i - k];
    }
    LineRunIs(s, k, |code|);
  }

  lemma MatchBeforeIsSearch(s: string, p: nat)
    requires p <= |s| && MatchAt(s, p).Some?
    requires forall i :: 0 <= i < p ==> MatchAt(s, i).None?
    ensures ParseEntryPayload(s) == MatchAt(s, p)
  {
    var r := FirstMatch(s, 0);
    assert r.Some?;
    assert !(r.value < p) && !(p < r.value);
  }

  /** A payload with no "/entry/" segment anywhere is rejected as malformed. */
  lemma NoEntrySegmentNoMatch(s: string)
    requires forall i :: !OccursAt(s, EntrySegment, i)
    ensures ParseEntryPayload(s) == None
  {
    forall i | 0 <= i <= |s| ensures MatchAt(s, i).None? {
      if OccursAt(s, Scheme, i) {
        var j := i + |Scheme|;
        assert !OccursAt(s, EntrySegment, j + NonSlashRun(s, j));
      }
    }
  }

  /** A scanned code is one line at most, so it never contains a line break. */
  lemma ParsedCodeIsOneLine(s: string)
    requires ParseEntryPayload(s).Some?
    ensures var r := ParseEntryPayload(s).value;
      && |r.locationId| > 0 && (forall i :: 0 <= i < |r.locationId| ==> r.locationId[i] != '/')
      && |r.code| > 0 && (forall i :: 0 <= i < |r.code| ==> !IsLineTerminator(r.code[i]))
  {
    var j := FirstMatch(s, 0).value;
    assert MatchAt(s, j) == ParseEntryPayload(s);
  }

  // ---------------------------------------------------------------- handleScan

  datatype ScanResult = ScanSuccess(message: string, locationName: string) | ScanError(message: string)

  /** The store accesses `handleScan` performs, in order. */
  datatype StoreCall = GetLocation | QueryCheckins | AddCheckin | IncrementOccupancy | UpdateUser

  /** The active-check-in query: same user, same place, status active. */
  predicate HasActiveCheckin(checkins: seq<CheckinDoc>, userId: Option<string>, locationId: string) {
    exists i :: 0 <= i < |checkins| && checkins[i].userId == userId && checkins[i].locationId == locationId
                && checkins[i].status == CheckinStatus.Active
  }

  /** The token test: the code must equal the stored entry token; a place without one accepts nothing. */
  predicate TokenAccepted(doc: LocationDoc, code: string) {
    doc.entryQRCode == Some(code)
  }

  function UidOf(user: Option<AuthContext.AuthUser>): Option<string> {
    if user.Some? then Some(user.value.uid) else None
  }

  function NewCheckin(uid: string, locationId: string, doc: LocationDoc, now: Timestamp): CheckinDoc {
    CheckinDoc(Some(uid), locationId, doc.name, now, None, CheckinStatus.Active)
  }

  /** All the guards pass (a signed-out scan cannot pass: the query's undefined user filter is rejected by the store) for this payload against this store. */
  predicate Admitted(p: EntryPayload, userLocation: Option<QueueContext.Location>, locations: map<string, LocationDoc>,
                     checkins: seq<CheckinDoc>, user: Option<AuthContext.AuthUser>) {
    && userLocation.None?
    && user.Some?
    && p.locationId in locations
    && TokenAccepted(locations[p.locationId], p.code)
    && !HasActiveCheckin(checkins, UidOf(user), p.locationId)
  }

  const FailedScan: string := "Failed to process scan"

  /** None of the collections `handleScan` writes has changed. */
  twostate predicate Untouched(db: Database)
    reads db
  {
    db.locations == old(db.locations) && db.checkins == old(db.checkins) && db.users == old(db.users)
  }

  /**
   * The write phase of `handleScan` for an admitted scan by `uid` at
   * `locationId`, whose document was `doc`: the check-in is added, the
   * occupancy is incremented and the profile points at the place. `calls` are
   * the accesses of this phase; a failure at one of them leaves the earlier
   * writes in place.
   */
  twostate predicate CheckinWritten(db: Database, locationId: string, doc: LocationDoc, uid: string,
                                    now: Timestamp, failing: Option<StoreCall>, calls: seq<StoreCall>, result: ScanResult)
    reads db
  {
    var checkedIn := old(db.checkins) + [NewCheckin(uid, locationId, doc, now)];
    var counted := old(db.locations)[locationId := doc.(currentOccupancy := doc.currentOccupancy + 1)];
    && (failing == Some(AddCheckin) ==>
          result == ScanError(FailedScan) && calls == [AddCheckin] && Untouched(db))
    && (failing == Some(IncrementOccupancy) ==>
          && result == ScanError(FailedScan) && calls == [AddCheckin, IncrementOccupancy]
          && db.checkins == checkedIn && db.locations == old(db.locations) && db.users == old(db.users))
    && (failing != Some(AddCheckin) && failing != Some(IncrementOccupancy) ==>
          && db.checkins == checkedIn && db.locations == counted
          && calls == [AddCheckin, IncrementOccupancy, UpdateUser]
          && (failing == Some(UpdateUser) || uid !in old(db.users) ==>
                result == ScanError(FailedScan) && db.users == old(db.users))
          && (failing != Some(UpdateUser) && uid in old(db.users) ==>
                && result == ScanSuccess("Check-in successful!", doc.name)
                && db.users == old(db.users)[uid := old(db.users)[uid].(currentLocationId := Some(locationId),
                                                                          currentLocationName := Some(doc.name))]))
  }

  class ScannerPage {
    const db: Database
    var isScanning: bool
    var isProcessing: bool
    var scanResult: Option<ScanResult>

    constructor (db: Database)
      ensures this.db == db && !isScanning && !isProcessing && scanResult == None
    {
      this.db := db;
      isScanning, isProcessing, scanResult := false, false, None;
    }

    /**
     * `handleScan`. `userLocation` is the queue provider's current place of the
     * user, `failing` the store access that throws if it is reached, and `calls`
     * the store accesses made, in order. A thrown error is reported as
     * "Failed to process scan".
     */
    method HandleScan(decodedText: string, user: Option<AuthContext.AuthUser>, userLocation: Option<QueueContext.Location>,
                      now: Timestamp, failing: Option<StoreCall>) returns (calls: seq<StoreCall>)
      modifies this, db
      ensures !isScanning && !isProcessing && scanResult.Some?
      ensures db.admins == old(db.admins)
      // format guard
      ensures ParseEntryPayload(decodedText).None? ==>
        scanResult == Some(ScanError("Invalid QR code format")) && calls == [] && Untouched(db)
      // single-place guard, before any store access
      ensures ParseEntryPayload(decodedText).Some? && userLocation.Some? ==>
        && scanResult == Some(ScanError("You need to exit " + userLocation.value.name + " first before checking in elsewhere"))
        && calls == [] && Untouched(db)
      // the location read and the token check
      ensures ParseEntryPayload(decodedText).Some? && userLocation.None? ==>
        var p := ParseEntryPayload(decodedText).value;
        && |calls| >= 1 && calls[0] == GetLocation
        && (failing == Some(GetLocation) ==>
              scanResult == Some(ScanError(FailedScan)) && calls == [GetLocation] && Untouched(db))
        && (failing != Some(GetLocation) && p.locationId !in old(db.locations) ==>
              scanResult == Some(ScanError("Location not found")) && calls == [GetLocation] && Untouched(db))
        && (failing != Some(GetLocation) && p.locationId in old(db.locations)
            && !TokenAccepted(old(db.locations)[p.locationId], p.code) ==>
              scanResult == Some(ScanError("Invalid or expired QR code")) && calls == [GetLocation] && Untouched(db))
      // the duplicate check-in query
      ensures ParseEntryPayload(decodedText).Some? && userLocation.None? && failing != Some(GetLocation) ==>
        var p := ParseEntryPayload(decodedText).value;
        p.locationId in old(db.locations) && TokenAccepted(old(db.locations)[p.locationId], p.code) ==>
          && |calls| >= 2 && calls[..2] == [GetLocation, QueryCheckins]
          && (failing == Some(QueryCheckins) || user.None? ==>
                scanResult == Some(ScanError(FailedScan)) && calls == [GetLocation, QueryCheckins] && Untouched(db))
          && (failing != Some(QueryCheckins) && user.Some? && HasActiveCheckin(old(db.checkins), UidOf(user), p.locationId) ==>
                && scanResult == Some(ScanError("You are already checked in here"))
                && calls == [GetLocation, QueryCheckins] && Untouched(db))
      // the writes
      ensures ParseEntryPayload(decodedText).Some? && failing != Some(GetLocation) && failing != Some(QueryCheckins) ==>
        var p := ParseEntryPayload(decodedText).value;
        Admitted(p, userLocation, old(db.locations), old(db.checkins), user) ==>
          && |calls| >= 2 && calls[..2] == [GetLocation, QueryCheckins]
          && CheckinWritten(db, p.locationId, old(db.locations)[p.locationId], user.value.uid, now, failing, calls[2..], scanResult.value)
    {
      isScanning := false;
      isProcessing := true;
      calls := [];

      var parsed := ParseEntryPayload(decodedText);
      if parsed.None? {
        scanResult := Some(ScanError("Invalid QR code format"));
        isProcessing := false;
        return;
      }
      var locationId, qrCode := parsed.value.locationId, parsed.value.code;

      if userLocation.Some? {
        scanResult := Some(ScanError("You need to exit " + userLocation.value.name + " first before checking in elsewhere"));
        isProcessing := false;
        return;
      }

      calls := calls + [GetLocation];
      if failing == Some(GetLocation) {
        scanResult := Some(ScanError(FailedScan));
        isProcessing := false;
        return;
      }
      if locationId !in db.locations {
        scanResult := Some(ScanError("Location not found"));
        isProcessing := false;
        return;
      }
      var locationData := db.locations[locationId];

      if !TokenAccepted(locationData, qrCode) {
        scanResult := Some(ScanError("Invalid or expired QR code"));
        isProcessing := false;
        return;
      }

      calls := calls + [QueryCheckins];
      // a signed-out user makes the query filter on an undefined value, which the store rejects
      if failing == Some(QueryCheckins) || user.None? {
        scanResult := Some(ScanError(FailedScan));
        isProcessing := false;
        return;
      }
      if HasActiveCheckin(db.checkins, UidOf(user), locationId) {
        scanResult := Some(ScanError("You are already checked in here"));
        isProcessing := false;
        return;
      }

      var writes, result := RecordCheckin(locationId, locationData, user.value.uid, now, failing);
      calls := calls + writes;
      scanResult := Some(result);
      isProcessing := false;
    }

    /** The three writes of an admitted scan, in the order `handleScan` makes them. */
    method RecordCheckin(locationId: string, doc: LocationDoc, uid: string, now: Timestamp,
                         failing: Option<StoreCall>) returns (calls: seq<StoreCall>, result: ScanResult)
      requires locationId in db.locations && db.locations[locationId] == doc
      modifies db
      ensures db.admins == old(db.admins)
      ensures CheckinWritten(db, locationId, doc, uid, now, failing, calls, result)
    {
      calls := [AddCheckin];
      if failing == Some(AddCheckin) {
        return calls, ScanError(FailedScan);
      }
      db.checkins := db.checkins + [NewCheckin(uid, locationId, doc, now)];

      calls := calls + [IncrementOccupancy];
      if failing == Some(IncrementOccupancy) {
        return calls, ScanError(FailedScan);
      }
      var current := db.locations[locationId];
      db.locations := db.locations[locationId := current.(currentOccupancy := current.currentOccupancy + 1)];

      calls := calls + [UpdateUser];
      // updating a user document that does not exist throws
      if failing == Some(UpdateUser) || uid !in db.users {
        return calls, ScanError(FailedScan);
      }
      var profile := db.users[uid];
      db.users := db.users[uid := profile.(currentLocationId := Some(locationId), currentLocationName := Some(doc.name))];
      result := ScanSuccess("Check-in successful!", doc.name);
    }
  }
}
