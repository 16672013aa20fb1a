/**
 * The admin page of printable entry QR codes: the table of entry urls built on
 * every snapshot of the locations collection, the `location` query parameter,
 * and the download and print actions.
 */
module AdminQrCodes {
  import opened Wrappers
  import opened DocumentStore
  import opened Text
  import opened Seqs
  import QrScannerPage

  /** The url an entry code is printed with; the scanner parses exactly this shape. */
  function EntryUrl(locationId: string, code: string): (u: string)
    ensures |u| == |QrScannerPage.Scheme| + |locationId| + |QrScannerPage.EntrySegment| + |code|
  {
    QrScannerPage.Scheme + locationId + QrScannerPage.EntrySegment + code
  }

  /**
   * Every printed code is read back by the scanner as the place and the token it
   * was printed for, provided the id has no '/' and the token no line break.
   */
  lemma EntryUrlRoundTrip(locationId: string, code: string)
    requires |locationId| > 0 && forall i :: 0 <= i < |locationId| ==> locationId[i] != '/'
    requires |code| > 0 && forall i :: 0 <= i < |code| ==> !IsLineTerminator(code[i])
    ensures QrScannerPage.ParseEntryPayload(EntryUrl(locationId, code)) == Some(QrScannerPage.EntryPayload(locationId, code))
  {
    var u := EntryUrl(locationId, code);
    var empty: string := [];
    assert empty + QrScannerPage.Scheme == QrScannerPage.Scheme;
    assert empty + QrScannerPage.Scheme + locationId + QrScannerPage.EntrySegment + code == u;
    assert u + empty == u;
    QrScannerPage.ParseEmbeddedUrl(empty, locationId, code, empty);
  }

  /** A location as this page lists it. */
  datatype QrListing = QrListing(id: string, name: string, kind: LocationType, entryQRCode: Option<string>)

  /**
   * `{ id: doc.id, ...doc.data() }`: the stored fields are spread after the
   * document id, so a stored `id` field wins over the document's own id.
   */
  function ListingOf(docId: string, d: LocationDoc): (l: QrListing)
    ensures l.id == d.storedId.GetOr(docId)
    ensures l.name == d.name && l.entryQRCode == d.entryQRCode
  {
    QrListing(if d.storedId.Some? then d.storedId.value else docId, d.name, d.kind, d.entryQRCode)
  }

  function Listings(docs: seq<(string, LocationDoc)>): (ls: seq<QrListing>)
    ensures |ls| == |docs|
    ensures forall i :: 0 <= i < |docs| ==> ls[i] == ListingOf(docs[i].0, docs[i].1)
  {
    seq(|docs|, i requires 0 <= i < |docs| => ListingOf(docs[i].0, docs[i].1))
  }

  /** The listings carrying the id `id`, in the order they are listed. */
  function ListingsWithId(ls: seq<QrListing>, id: string): (r: seq<QrListing>)
    ensures forall i :: 0 <= i < |r| ==> r[i] in ls && r[i].id == id
    ensures forall i :: 0 <= i < |ls| && ls[i].id == id ==> ls[i] in r
    ensures multiset(r) <= multiset(ls)
  {
    FilterSubMultiset(ls, (l: QrListing) => l.id == id);
    Filter(ls, (l: QrListing) => l.id == id)
  }

  /**
   * The selection keeps the list's order: selecting from a list in two parts is
   * selecting from each part, and a single listing is kept exactly when its id is
   * the selected one. Together these determine the selection of every list.
   */
  lemma ListingsWithIdKeepOrder(before: seq<QrListing>, after: seq<QrListing>, l: QrListing, id: string)
    ensures ListingsWithId(before + after, id) == ListingsWithId(before, id) + ListingsWithId(after, id)
    ensures ListingsWithId([l], id) == if l.id == id then [l] else []
  {
    FilterAppend(before, after, (x: QrListing) => x.id == id);
    FilterSingleton(l, (x: QrListing) => x.id == id);
  }

  /**
   * The listing at position `i` gets an image when it has a truthy entry code and
   * generating its image does not throw; `genFails` holds the positions whose
   * generation throws.
   */
  predicate Renders(l: QrListing, i: nat, genFails: set<nat>) {
    Truthy(l.entryQRCode) && i !in genFails
  }

  /**
   * The image table after visiting `ls` in order: one entry per rendered id,
   * a later listing with the same id replacing an earlier one. The url stands
   * for the image that encodes it.
   */
  function QrTable(ls: seq<QrListing>, genFails: set<nat>): map<string, string>
    decreases |ls|
  {
    if ls == [] then map[]
    else
      var l := ls[|ls| - 1];
      var m := QrTable(ls[..|ls| - 1], genFails);
      if Renders(l, |ls| - 1, genFails) then m[l.id := EntryUrl(l.id, l.entryQRCode.value)] else m
  }

  /** An id has an image exactly when some listing with that id renders. */
  lemma {:induction false} QrTableKeys(ls: seq<QrListing>, genFails: set<nat>, k: string)
    ensures k in QrTable(ls, genFails) <==> exists i :: 0 <= i < |ls| && ls[i].id == k && Renders(ls[i], i, genFails)
    decreases |ls|
  {
    if ls != [] {
      var init := ls[..|ls| - 1];
      QrTableKeys(init, genFails, k);
      if k in QrTable(init, genFails) {
        var i :| 0 <= i < |init| && init[i].id == k && Renders(init[i], i, genFails);
        assert ls[i] == init[i];
      }
      if exists i :: 0 <= i < |ls| && ls[i].id == k && Renders(ls[i], i, genFails) {
        var i :| 0 <= i < |ls| && ls[i].id == k && Renders(ls[i], i, genFails);
        if i < |init| {
          assert init[i] == ls[i];
        }
      }
    }
  }

  /** The image of an id encodes the entry url of the LAST rendered listing with that id. */
  lemma {:induction false} QrTableValue(ls: seq<QrListing>, genFails: set<nat>, k: string)
    requires k in QrTable(ls, genFails)
    ensures exists i :: 0 <= i < |ls| && ls[i].id == k && Renders(ls[i], i, genFails)
                        && QrTable(ls, genFails)[k] == EntryUrl(k, ls[i].entryQRCode.value)
                        && forall j :: i < j < |ls| && ls[j].id == k ==> !Renders(ls[j], j, genFails)
    decreases |ls|
  {
    var init := ls[..|ls| - 1];
    var l := ls[|ls| - 1];
    if l.id == k && Renders(l, |ls| - 1, genFails) {
      assert ls[|ls| - 1].id == k;
    } else {
      QrTableValue(init, genFails, k);
      var i :| 0 <= i < |init| && init[i].id == k && Renders(init[i], i, genFails)
               && QrTable(init, genFails)[k] == EntryUrl(k, init[i].entryQRCode.value)
               && forall j :: i < j < |init| && init[j].id == k ==> !Renders(init[j], j, genFails);
      assert ls[i] == init[i];
      forall j | i < j < |ls| && ls[j].id == k ensures !Renders(ls[j], j, genFails) {
        if j < |init| {
          assert ls[j] == init[j];
        }
      }
    }
  }

  /** Every image on the page scans back to its own id and that listing's token. */
  lemma QrTableScannable(ls: seq<QrListing>, genFails: set<nat>, k: string)
    requires k in QrTable(ls, genFails)
    requires |k| > 0 && forall i :: 0 <= i < |k| ==> k[i] != '/'
    requires forall i :: 0 <= i < |ls| && Truthy(ls[i].entryQRCode) ==> NoLineTerminator(ls[i].entryQRCode.value)
    ensures exists i :: 0 <= i < |ls| && ls[i].id == k && Renders(ls[i], i, genFails)
                        && QrScannerPage.ParseEntryPayload(QrTable(ls, genFails)[k])
                           == Some(QrScannerPage.EntryPayload(k, ls[i].entryQRCode.value))
  {
    QrTableValue(ls, genFails, k);
    var i :| 0 <= i < |ls| && ls[i].id == k && Renders(ls[i], i, genFails)
             && QrTable(ls, genFails)[k] == EntryUrl(k, ls[i].entryQRCode.value)
             && forall j :: i < j < |ls| && ls[j].id == k ==> !Renders(ls[j], j, genFails);
    EntryUrlRoundTrip(k, ls[i].entryQRCode.value);
  }

  predicate NoLineTerminator(s: string) {
    forall i :: 0 <= i < |s| ==> !IsLineTerminator(s[i])
  }

  /** Leading whitespace removed. */
  function DropWhitespace(s: string): (r: string)
    ensures |r| <= |s| && r == s[|s| - |r|..]
    ensures forall i :: 0 <= i < |s| - |r| ==> IsWhitespace(s[i])
    ensures r == [] || !IsWhitespace(r[0])
  {
    if s != [] && IsWhitespace(s[0]) then DropWhitespace(s[1..]) else s
  }

  /** `s.replace(/\s+/g, '_')`: every maximal run of whitespace becomes one underscore. */
  function CollapseWhitespace(s: string): (r: string)
    ensures |r| <= |s|
    ensures forall i :: 0 <= i < |r| ==> !IsWhitespace(r[i])
    decreases |s|
  {
    if s == [] then []
    else if IsWhitespace(s[0]) then ['_'] + CollapseWhitespace(DropWhitespace(s[1..]))
    else [s[0]] + CollapseWhitespace(s[1..])
  }

  /** A name without whitespace is used unchanged. */
  lemma {:induction false} CollapseWithoutWhitespace(s: string)
    requires forall i :: 0 <= i < |s| ==> !IsWhitespace(s[i])
    ensures CollapseWhitespace(s) == s
    decreases |s|
  {
    if s != [] {
      assert !IsWhitespace(s[0]);
      CollapseWithoutWhitespace(s[1..]);
    }
  }

  /** A character other than whitespace is kept as it is, ahead of the rest collapsed. */
  lemma CollapseKeepsNonWhitespace(c: char, s: string)
    requires !IsWhitespace(c)
    ensures CollapseWhitespace([c] + s) == [c] + CollapseWhitespace(s)
  {
    assert ([c] + s)[1..] == s;
  }

  /** Collapsing twice is collapsing once. */
  lemma CollapseIdempotent(s: string)
    ensures CollapseWhitespace(CollapseWhitespace(s)) == CollapseWhitespace(s)
  {
    CollapseWithoutWhitespace(CollapseWhitespace(s));
  }

  /** Exactly one underscore per run: a single space and a run of spaces give the same name. */
  lemma CollapseRun(run: string, b: string)
    requires |run| > 0 && forall i :: 0 <= i < |run| ==> IsWhitespace(run[i])
    requires b == [] || !IsWhitespace(b[0])
    ensures CollapseWhitespace(run + b) == ['_'] + CollapseWhitespace(b)
  {
    var s := run + b;
    assert s[1..] == run[1..] + b;
    DropRun(run[1..], b);
  }

  lemma {:induction false} DropRun(run: string, b: string)
    requires forall i :: 0 <= i < |run| ==> IsWhitespace(run[i])
    requires b == [] || !IsWhitespace(b[0])
    ensures DropWhitespace(run + b) == b
    decreases |run|
  {
    if run == [] {
      assert run + b == b;
    } else {
      assert (run + b)[0] == run[0];
      assert (run + b)[1..] == run[1..] + b;
      DropRun(run[1..], b);
    }
  }

  datatype DownloadFile = DownloadFile(fileName: string, href: string)
  datatype PrintSheet = PrintSheet(title: string, image: string, heading: string)

  const DownloadSuffix: string := "_Entry_QR.png"

  class QrCodesPage {
    var locations: seq<QrListing>
    var selectedLocation: Option<string>
    var qrImages: map<string, string>

    constructor ()
      ensures locations == [] && selectedLocation == None && qrImages == map[]
    {
      locations, selectedLocation, qrImages := [], None, map[];
    }

    /** The `location` search parameter selects a place only when it is truthy. */
    method OnSearchParams(locationParam: Option<string>)
      modifies this
      ensures selectedLocation == (if Truthy(locationParam) then locationParam else old(selectedLocation))
      ensures locations == old(locations) && qrImages == old(qrImages)
    {
      if Truthy(locationParam) {
        selectedLocation := locationParam;
      }
    }

    /**
     * The snapshot listener: list the documents and rebuild the image table,
     * skipping listings without a code and those whose image generation throws.
     */
    method OnSnapshot(docs: seq<(string, LocationDoc)>, genFails: set<nat>)
      modifies this
      ensures locations == Listings(docs)
      ensures qrImages == QrTable(locations, genFails)
      ensures selectedLocation == old(selectedLocation)
    {
      locations := Listings(docs);
      var qrData: map<string, string> := map[];
      for i := 0 to |locations|
        invariant qrData == QrTable(locations[..i], genFails)
      {
        var loc := locations[i];
        assert locations[..i + 1][..i] == locations[..i];
        if Truthy(loc.entryQRCode) {
          var entryUrl := EntryUrl(loc.id, loc.entryQRCode.value);
          if i !in genFails {
            qrData := qrData[loc.id := entryUrl];
          }
        }
      }
      assert locations[..|locations|] == locations;
      qrImages := qrData;
    }

    /** The cards shown: only the selected place when one is selected, otherwise all. */
    function FilteredLocations(): (r: seq<QrListing>)
      reads this
      ensures !Truthy(selectedLocation) ==> r == locations
      ensures Truthy(selectedLocation) ==>
        && (forall i :: 0 <= i < |r| ==> r[i] in locations && r[i].id == selectedLocation.value)
        && (forall i :: 0 <= i < |locations| && locations[i].id == selectedLocation.value ==> locations[i] in r)
        && multiset(r) <= multiset(locations)
        && r == ListingsWithId(locations, selectedLocation.value)
    {
      if Truthy(selectedLocation) then ListingsWithId(locations, selectedLocation.value) else locations
    }

    /** `locations.find(l => l.id === locationId)`. */
    function Find(locationId: string): (r: Option<QrListing>)
      reads this
      ensures r.Some? ==> r.value in locations && r.value.id == locationId
      ensures r.Some? ==> exists k :: 0 <= k < |locations| && locations[k] == r.value
                                      && forall j :: 0 <= j < k ==> locations[j].id != locationId
      ensures r.None? ==> forall i :: 0 <= i < |locations| ==> locations[i].id != locationId
    {
      var k := FirstIndex(locations, (l: QrListing) => l.id == locationId);
      if k.Some? then Some(locations[k.value]) else None
    }

    /** `handleDownload`: the file offered, if any. */
    function HandleDownload(locationId: string): (r: Option<DownloadFile>)
      reads this
      ensures r.Some? <==> locationId in qrImages && Find(locationId).Some?
      ensures r.Some? ==>
        && r.value.href == qrImages[locationId]
        && r.value.fileName == CollapseWhitespace(Find(locationId).value.name) + DownloadSuffix
        && forall i :: 0 <= i < |r.value.fileName| ==> !IsWhitespace(r.value.fileName[i])
    {
      var location := Find(locationId);
      if locationId !in qrImages || location.None? then None
      else
        var name := CollapseWhitespace(location.value.name) + DownloadSuffix;
        assert forall i :: 0 <= i < |DownloadSuffix| ==> !IsWhitespace(DownloadSuffix[i]);
        Some(DownloadFile(name, qrImages[locationId]))
    }

    /** `handlePrint`: the sheet written to the new window; nothing when the window is blocked. */
    function HandlePrint(locationId: string, windowOpens: bool): (r: Option<PrintSheet>)
      reads this
      ensures r.Some? <==> locationId in qrImages && Find(locationId).Some? && windowOpens
      ensures r.Some? ==>
        && r.value.image == qrImages[locationId]
        && r.value.title == "Entry QR - " + Find(locationId).value.name
        && r.value.heading == Find(locationId).value.name
    {
      var location := Find(locationId);
      if locationId !in qrImages || location.None? || !windowOpens then None
      else Some(PrintSheet("Entry QR - " + location.value.name, qrImages[locationId], location.value.name))
    }
  }
}
