/**
 * The admin page that creates, edits and deletes locations: the form state,
 * the token generator, and the writes of `handleSave` and `handleDelete`.
 */
module AdminLocations {
  import opened Wrappers
  import opened DocumentStore
  import opened Text
  import Ui
  import QrScannerPage
  import AdminQrCodes

  // ---------------------------------------------------------------- tokens

  const TokenPrefix: string := "smartqueue-"

  /** A base-36 digit, as `Number.prototype.toString(36)` writes them. */
  predicate IsBase36Digit(c: char) {
    '0' <= c <= '9' || 'a' <= c <= 'z'
  }

  /** What `Math.random().toString(36).substr(2, 9)` can give: at most nine base-36 digits. */
  predicate IsRandomSuffix(s: string) {
    |s| <= 9 && forall i :: 0 <= i < |s| ==> IsBase36Digit(s[i])
  }

  /** `generateQRCode`: the prefix, the clock in decimal, a dash and the random digits. */
  function GenerateQRCode(now: Timestamp, randomDigits: string): (token: string)
    requires IsRandomSuffix(randomDigits)
    ensures |token| > |TokenPrefix| && token[..|TokenPrefix|] == TokenPrefix
    ensures forall i :: 0 <= i < |token| ==> token[i] != '/' && !IsLineTerminator(token[i]) && !IsWhitespace(token[i])
  {
    var token := TokenPrefix + Decimal(now) + "-" + randomDigits;
    assert token == TokenPrefix + (Decimal(now) + "-" + randomDigits);
    forall i | 0 <= i < |token| ensures token[i] != '/' && !IsLineTerminator(token[i]) && !IsWhitespace(token[i]) {
      if i < |TokenPrefix| {
        assert token[i] == TokenPrefix[i];
      } else if i < |TokenPrefix| + |Decimal(now)| {
        assert token[i] == Decimal(now)[i - |TokenPrefix|];
      } else if i == |TokenPrefix| + |Decimal(now)| {
        assert token[i] == '-';
      } else {
        assert token[i] == randomDigits[i - |TokenPrefix| - |Decimal(now)| - 1];
      }
    }
    token
  }

  /** The clock reading can be read back from a token: it is the digit run after the prefix. */
  lemma TokenClock(now: Timestamp, randomDigits: string)
    requires IsRandomSuffix(randomDigits)
    ensures var token := GenerateQRCode(now, randomDigits);
      var p := |TokenPrefix|;
      p <= |token| && DigitsValue(token[p..p + DigitRun(token, p)]) == now
  {
    var token := GenerateQRCode(now, randomDigits);
    var d := Decimal(now);
    var p := |TokenPrefix|;
    assert token == TokenPrefix + d + "-" + randomDigits;
    assert token[p..p + |d|] == d;
    assert token[p + |d|] == '-';
    forall k | p <= k < p + |d| ensures IsDigit(token[k]) {
      assert token[k] == d[k - p];
    }
    DigitRunIs(token, p, |d|);
    DecimalRoundTrip(now);
  }

  /**
   * Two generated tokens are equal exactly when both the clock readings and the
   * random digits are: the clock is the digit run after the prefix, and the
   * random digits are everything after the dash that follows it.
   */
  lemma TokensEqualIff(t1: Timestamp, r1: string, t2: Timestamp, r2: string)
    requires IsRandomSuffix(r1) && IsRandomSuffix(r2)
    ensures GenerateQRCode(t1, r1) == GenerateQRCode(t2, r2) <==> t1 == t2 && r1 == r2
  {
    if GenerateQRCode(t1, r1) == GenerateQRCode(t2, r2) {
      TokenClock(t1, r1);
      TokenClock(t2, r2);
      var token := GenerateQRCode(t1, r1);
      var n := |TokenPrefix| + |Decimal(t1)| + 1;
      assert token == TokenPrefix + Decimal(t1) + "-" + r1;
      assert token == TokenPrefix + Decimal(t2) + "-" + r2;
      assert token[n..] == r1;
      assert token[n..] == r2;
    }
  }

  // ---------------------------------------------------------------- parseInt

  /** Length of the run of decimal digits starting at `i`. */
  function DigitRun(s: string, i: nat): (n: nat)
    requires i <= |s|
    ensures i + n <= |s| && AllDigits(s[i..i + n])
    ensures i + n == |s| || !IsDigit(s[i + n])
    decreases |s| - i
  {
    if i < |s| && IsDigit(s[i]) then
      var n := 1 + DigitRun(s, i + 1);
      assert s[i..i + n] == [s[i]] + s[i + 1..i + n];
      n
    else 0
  }

  lemma DigitRunIs(s: string, i: nat, n: nat)
    requires i + n <= |s|
    requires forall k :: i <= k < i + n ==> IsDigit(s[k])
    requires i + n == |s| || !IsDigit(s[i + n])
    ensures DigitRun(s, i) == n
    decreases n
  {
    if n > 0 {
      DigitRunIs(s, i + 1, n - 1);
    }
  }

  /** Position of the first character that is not white space. */
  function SkipWhitespace(s: string, i: nat): (j: nat)
    requires i <= |s|
    ensures i <= j <= |s| && (j == |s| || !IsWhitespace(s[j]))
    ensures forall k :: i <= k < j ==> IsWhitespace(s[k])
    decreases |s| - i
  {
    if i < |s| && IsWhitespace(s[i]) then SkipWhitespace(s, i + 1) else i
  }

  /**
   * `parseInt(s)` for base 10: leading white space, an optional sign, then the
   * longest run of digits; `None` stands for `NaN`.
   */
  function ParseInt(s: string): Option<int> {
    var i := SkipWhitespace(s, 0);
    var negative := i < |s| && s[i] == '-';
    var j := if i < |s| && (s[i] == '-' || s[i] == '+') then i + 1 else i;
    var n := DigitRun(s, j);
    if n == 0 then None
    else
      var v: int := DigitsValue(s[j..j + n]);
      Some(if negative then -v else v)
  }

  /** `parseInt(s) || 0`: `NaN` (and a zero) become 0. */
  function ParseIntOrZero(s: string): int {
    var r := ParseInt(s);
    if r.None? then 0 else r.value
  }

  /** A number the input field shows is read back as itself. */
  lemma ParseIntDecimal(n: nat)
    ensures ParseIntOrZero(Decimal(n)) == n
  {
    var d := Decimal(n);
    DecimalRoundTrip(n);
    assert IsDigit(d[0]);
    assert SkipWhitespace(d, 0) == 0;
    assert d[0..] == d;
    DigitRunAll(d, 0);
    assert d[0..|d|] == d;
  }

  /** ... and so is its negation. */
  lemma ParseIntNegativeDecimal(n: nat)
    ensures ParseIntOrZero("-" + Decimal(n)) == -(n as int)
  {
    var d := Decimal(n);
    DecimalRoundTrip(n);
    var m := "-" + d;
    assert SkipWhitespace(m, 0) == 0;
    assert m[1..] == d;
    DigitRunAll(m, 1);
    assert m[1..1 + |d|] == d;
  }

  lemma DigitRunAll(s: string, i: nat)
    requires i <= |s| && AllDigits(s[i..])
    ensures DigitRun(s, i) == |s| - i
    decreases |s| - i
  {
    if i < |s| {
      assert s[i] == s[i..][0];
      assert s[i + 1..] == s[i..][1..];
      DigitRunAll(s, i + 1);
    }
  }

  /** Input that does not start with a number reads as 0, so an unparsable capacity is saved as 0. */
  lemma NonNumericIsZero(s: string)
    requires forall i :: 0 <= i < |s| ==> !IsDigit(s[i])
    ensures ParseIntOrZero(s) == 0
  {
  }

  // ---------------------------------------------------------------- form and page

  datatype LocationForm = LocationForm(name: string, kind: LocationType, maxCapacity: int, positionX: int, positionY: int)

  /** The form the page starts with and resets to. */
  const BlankForm := LocationForm("", Canteen, 100, 50, 50)

  /** A listed location: the document id and the stored fields. */
  datatype LocationRow = LocationRow(id: string, doc: LocationDoc)

  /** The form filled from a listed location. */
  function FormOf(row: LocationRow): (f: LocationForm)
    ensures f.name == row.doc.name && f.kind == row.doc.kind && f.maxCapacity == row.doc.maxCapacity
    ensures f.positionX == row.doc.position.x && f.positionY == row.doc.position.y
  {
    LocationForm(row.doc.name, row.doc.kind, row.doc.maxCapacity, row.doc.position.x, row.doc.position.y)
  }

  /** The document an edit leaves: the form's fields and a new update time, everything else as it was. */
  function Edited(d: LocationDoc, form: LocationForm, now: Timestamp): (e: LocationDoc)
    ensures e.name == form.name && e.kind == form.kind && e.maxCapacity == form.maxCapacity
    ensures e.position == Position(form.positionX, form.positionY) && e.updatedAt == Some(now)
    ensures e.(name := d.name, kind := d.kind, maxCapacity := d.maxCapacity, position := d.position,
               updatedAt := d.updatedAt) == d
  {
    d.(name := form.name, kind := form.kind, maxCapacity := form.maxCapacity,
       position := Position(form.positionX, form.positionY), updatedAt := Some(now))
  }

  /** The document a create writes. */
  function Created(form: LocationForm, entryQRCode: string, exitQRCode: string, now: Timestamp): (d: LocationDoc)
    ensures d.name == form.name && d.kind == form.kind && d.maxCapacity == form.maxCapacity
    ensures d.currentOccupancy == 0 && d.avgWaitTime == 5
    ensures d.entryQRCode == Some(entryQRCode) && d.exitQRCode == Some(exitQRCode)
    ensures d.createdAt == Some(now) && d.updatedAt == Some(now) && d.storedId == None
  {
    LocationDoc(None, form.name, form.kind, form.maxCapacity, 0, 5, Position(form.positionX, form.positionY),
                Some(entryQRCode), Some(exitQRCode), Some(now), Some(now))
  }

  /**
   * A place created here is usable end to end: the entry code printed for it
   * scans back to its id and token, and the token is accepted.
   */
  lemma CreatedLocationAdmitsEntryCode(newId: string, form: LocationForm, entryClock: Timestamp, entryDigits: string,
                                       exitCode: string, now: Timestamp)
    requires |newId| > 0 && forall i :: 0 <= i < |newId| ==> newId[i] != '/'
    requires IsRandomSuffix(entryDigits)
    ensures var entry := GenerateQRCode(entryClock, entryDigits);
      var d := Created(form, entry, exitCode, now);
      && QrScannerPage.ParseEntryPayload(AdminQrCodes.EntryUrl(newId, entry)) == Some(QrScannerPage.EntryPayload(newId, entry))
      && QrScannerPage.TokenAccepted(d, entry)
  {
    var entry := GenerateQRCode(entryClock, entryDigits);
    AdminQrCodes.EntryUrlRoundTrip(newId, entry);
  }

  /**
   * The exit token of a created place is refused at the entry exactly when it
   * differs from the entry token: the two are generated one after the other,
   * usually at the same clock reading, so only the random digits tell them apart.
   */
  lemma CreatedLocationRefusesExitCode(form: LocationForm, entryClock: Timestamp, entryDigits: string,
                                       exitClock: Timestamp, exitDigits: string, now: Timestamp)
    requires IsRandomSuffix(entryDigits) && IsRandomSuffix(exitDigits)
    ensures var exit := GenerateQRCode(exitClock, exitDigits);
      var d := Created(form, GenerateQRCode(entryClock, entryDigits), exit, now);
      !QrScannerPage.TokenAccepted(d, exit) <==> entryClock != exitClock || entryDigits != exitDigits
  {
    TokensEqualIff(entryClock, entryDigits, exitClock, exitDigits);
  }

  const SaveFailed: string := "Failed to save location"

  class LocationsPage {
    const db: Database
    var locations: seq<LocationRow>
    var isLoading: bool
    var isDialogOpen: bool
    var editingLocation: Option<LocationRow>
    var formData: LocationForm
    var isSaving: bool
    var toast: Option<Ui.Toast>

    constructor (db: Database)
      ensures this.db == db && locations == [] && isLoading && !isDialogOpen && editingLocation == None
      ensures formData == BlankForm && !isSaving && toast == None
    {
      this.db := db;
      locations, isLoading, isDialogOpen, editingLocation := [], true, false, None;
      formData, isSaving, toast := BlankForm, false, None;
    }

    /** The snapshot listener: the listed rows replace the old ones and loading ends. */
    method OnSnapshot(rows: seq<LocationRow>)
      modifies this
      ensures locations == rows && !isLoading
      ensures isDialogOpen == old(isDialogOpen) && editingLocation == old(editingLocation)
      ensures formData == old(formData) && isSaving == old(isSaving) && toast == old(toast)
    {
      locations := rows;
      isLoading := false;
    }

    /**
     * `handleSave`. Creating stores the document under `newId`, the key the
     * store assigns; the two tokens come from `generateQRCode` at `entryClock`
     * and `exitClock`; `now` is the write time; `fails` makes the write throw.
     * Updating a document that no longer exists throws as well.
     */
    method HandleSave(newId: string, entryClock: Timestamp, entryDigits: string, exitClock: Timestamp, exitDigits: string,
                      now: Timestamp, fails: bool)
      requires newId !in db.locations
      requires IsRandomSuffix(entryDigits) && IsRandomSuffix(exitDigits)
      modifies this, db
      ensures db.checkins == old(db.checkins) && db.users == old(db.users) && db.admins == old(db.admins)
      ensures locations == old(locations) && isLoading == old(isLoading)
      // only emptiness of the name is checked
      ensures old(formData.name) == "" ==>
        && toast == Some(Ui.Alert("Please enter a location name"))
        && db.locations == old(db.locations) && isSaving == old(isSaving)
        && isDialogOpen == old(isDialogOpen) && editingLocation == old(editingLocation) && formData == old(formData)
      ensures old(formData.name) != "" ==> !isSaving
      ensures old(formData.name) != "" ==>
        var updating := old(editingLocation).Some?;
        var failed := fails || (updating && old(editingLocation).value.id !in old(db.locations));
        && (failed ==>
              && toast == Some(Ui.Alert(SaveFailed)) && db.locations == old(db.locations)
              && isDialogOpen == old(isDialogOpen) && editingLocation == old(editingLocation) && formData == old(formData))
        && (!failed ==>
              && !isDialogOpen && editingLocation == None && formData == BlankForm
              && (updating ==>
                    var id := old(editingLocation).value.id;
                    && toast == Some(Ui.Notice("Location updated"))
                    && db.locations == old(db.locations)[id := Edited(old(db.locations)[id], old(formData), now)])
              && (!updating ==>
                    && toast == Some(Ui.Notice("Location created with QR codes"))
                    && db.locations == old(db.locations)[newId := Created(old(formData),
                         GenerateQRCode(entryClock, entryDigits), GenerateQRCode(exitClock, exitDigits), now)]))
    {
      if formData.name == "" {
        toast := Some(Ui.Alert("Please enter a location name"));
        return;
      }

      isSaving := true;
      if editingLocation.Some? {
        var id := editingLocation.value.id;
        if fails || id !in db.locations {
          toast := Some(Ui.Alert(SaveFailed));
          isSaving := false;
          return;
        }
        db.locations := db.locations[id := Edited(db.locations[id], formData, now)];
        toast := Some(Ui.Notice("Location updated"));
      } else {
        var entryQRCode := GenerateQRCode(entryClock, entryDigits);
        var exitQRCode := GenerateQRCode(exitClock, exitDigits);
        if fails {
          toast := Some(Ui.Alert(SaveFailed));
          isSaving := false;
          return;
        }
        db.locations := db.locations[newId := Created(formData, entryQRCode, exitQRCode, now)];
        toast := Some(Ui.Notice("Location created with QR codes"));
      }

      isDialogOpen := false;
      editingLocation := None;
      formData := BlankForm;
      isSaving := false;
    }

    /** `handleEdit`: remember the row, fill the form from it and open the dialog. */
    method HandleEdit(location: LocationRow)
      modifies this
      ensures editingLocation == Some(location) && formData == FormOf(location) && isDialogOpen
      ensures locations == old(locations) && isLoading == old(isLoading) && isSaving == old(isSaving) && toast == old(toast)
    {
      editingLocation := Some(location);
      formData := FormOf(location);
      isDialogOpen := true;
    }

    /** `handleDelete`: only after the confirmation, and only the one document. */
    method HandleDelete(locationId: string, confirmed: bool, fails: bool)
      modifies this, db
      ensures db.checkins == old(db.checkins) && db.users == old(db.users) && db.admins == old(db.admins)
      ensures locations == old(locations) && isLoading == old(isLoading) && isDialogOpen == old(isDialogOpen)
      ensures editingLocation == old(editingLocation) && formData == old(formData) && isSaving == old(isSaving)
      ensures !confirmed ==> db.locations == old(db.locations) && toast == old(toast)
      ensures confirmed && fails ==> db.locations == old(db.locations) && toast == Some(Ui.Alert("Failed to delete location"))
      ensures confirmed && !fails ==> db.locations == old(db.locations) - {locationId} && toast == Some(Ui.Notice("Location deleted"))
    {
      if !confirmed {
        return;
      }
      if fails {
        toast := Some(Ui.Alert("Failed to delete location"));
        return;
      }
      db.locations := db.locations - {locationId};
      toast := Some(Ui.Notice("Location deleted"));
    }

    /** The dialog's `onOpenChange`: closing it drops the edit and resets the form. */
    method OnDialogOpenChange(open: bool)
      modifies this
      ensures isDialogOpen == open
      ensures open ==> editingLocation == old(editingLocation) && formData == old(formData)
      ensures !open ==> editingLocation == None && formData == BlankForm
      ensures locations == old(locations) && isLoading == old(isLoading) && isSaving == old(isSaving) && toast == old(toast)
    {
      isDialogOpen := open;
      if !open {
        editingLocation := None;
        formData := BlankForm;
      }
    }

    method SetName(value: string)
      modifies this
      ensures formData == old(formData).(name := value)
      ensures isDialogOpen == old(isDialogOpen) && editingLocation == old(editingLocation) && isSaving == old(isSaving)
      ensures locations == old(locations) && isLoading == old(isLoading) && toast == old(toast)
    {
      formData := formData.(name := value);
    }

    method SetKind(value: LocationType)
      modifies this
      ensures formData == old(formData).(kind := value)
      ensures isDialogOpen == old(isDialogOpen) && editingLocation == old(editingLocation) && isSaving == old(isSaving)
      ensures locations == old(locations) && isLoading == old(isLoading) && toast == old(toast)
    {
      formData := formData.(kind := value);
    }

    /** The number fields keep `parseInt(value) || 0`; nothing bounds the result. */
    method SetMaxCapacity(input: string)
      modifies this
      ensures formData == old(formData).(maxCapacity := ParseIntOrZero(input))
      ensures isDialogOpen == old(isDialogOpen) && editingLocation == old(editingLocation) && isSaving == old(isSaving)
      ensures locations == old(locations) && isLoading == old(isLoading) && toast == old(toast)
    {
      formData := formData.(maxCapacity := ParseIntOrZero(input));
    }

    method SetPositionX(input: string)
      modifies this
      ensures formData == old(formData).(positionX := ParseIntOrZero(input))
      ensures isDialogOpen == old(isDialogOpen) && editingLocation == old(editingLocation) && isSaving == old(isSaving)
      ensures locations == old(locations) && isLoading == old(isLoading) && toast == old(toast)
    {
      formData := formData.(positionX := ParseIntOrZero(input));
    }

    method SetPositionY(input: string)
      modifies this
      ensures formData == old(formData).(positionY := ParseIntOrZero(input))
      ensures isDialogOpen == old(isDialogOpen) && editingLocation == old(editingLocation) && isSaving == old(isSaving)
      ensures locations == old(locations) && isLoading == old(isLoading) && toast == old(toast)
    {
      formData := formData.(positionY := ParseIntOrZero(input));
    }
  }
}
