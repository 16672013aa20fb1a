/**
 * The remote document database, held in memory: the `locations`, `checkins`,
 * `users` and `admins` collections as the pages read and write them.
 */
module DocumentStore {
  import opened Wrappers

  /** Milliseconds since the epoch, as `Date.now()` or `Timestamp.now()` give them. */
  type Timestamp = nat

  datatype LocationType = Canteen | Library | Office | Cafe

  datatype Position = Position(x: int, y: int)

  /**
   * A document of the `locations` collection. `storedId` is the `id` data field
   * that the seeding routine writes besides the document key; the QR tokens and
   * the time stamps are absent from some documents.
   */
  datatype LocationDoc = LocationDoc(
    storedId: Option<string>,
    name: string,
    kind: LocationType,
    maxCapacity: int,
    currentOccupancy: int,
    avgWaitTime: int,
    position: Position,
    entryQRCode: Option<string>,
    exitQRCode: Option<string>,
    createdAt: Option<Timestamp>,
    updatedAt: Option<Timestamp>)

  datatype CheckinStatus = Active | Completed

  /** A document of the `checkins` collection; `userId` is `None` when the field is absent. */
  datatype CheckinDoc = CheckinDoc(
    userId: Option<string>,
    locationId: string,
    locationName: string,
    entryTime: Timestamp,
    exitTime: Option<Timestamp>,
    status: CheckinStatus)

  /**
   * A document of the `users` collection. The boolean preference fields
   * (`notificationsEnabled`, `soundEnabled`, `showProfile`, ...) live in `flags`,
   * keyed by field name; a field that is missing or null has no key.
   */
  datatype UserDoc = UserDoc(
    email: Option<string>,
    displayName: Option<string>,
    photoURL: Option<string>,
    totalTimeSaved: int,
    totalQueuesJoined: int,
    currentLocationId: Option<string>,
    currentLocationName: Option<string>,
    createdAt: Option<Timestamp>,
    flags: map<string, bool>)

  /** A document of the `admins` collection, keyed by e-mail address. */
  datatype AdminDoc = AdminDoc(role: Option<string>)

  class Database {
    var locations: map<string, LocationDoc>
    var checkins: seq<CheckinDoc>
    var users: map<string, UserDoc>
    var admins: map<string, AdminDoc>

    constructor ()
      ensures locations == map[] && checkins == [] && users == map[] && admins == map[]
    {
      locations, checkins, users, admins := map[], [], map[], map[];
    }
  }
}

/** What a page shows the user in a transient notice (`toast.success` / `toast.error`). */
module Ui {
  datatype Toast = Notice(message: string) | Alert(message: string)
}
