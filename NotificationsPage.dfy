/**
 * The notification preferences page: six switches, defaulted from the user's
 * profile document and written back one field at a time.
 */
module NotificationsPage {
  import opened Wrappers
  import opened DocumentStore
  import AuthContext
  import Ui

  datatype NotificationKey = Enabled | QueueUpdates | TurnReminders | CrowdAlerts | Sound | Vibration

  datatype NotificationSettings = NotificationSettings(
    enabled: bool, queueUpdates: bool, turnReminders: bool, crowdAlerts: bool, sound: bool, vibration: bool)

  /** Before anything is loaded every switch is on. */
  const Defaults := NotificationSettings(true, true, true, true, true, true)

  function Get(s: NotificationSettings, k: NotificationKey): bool {
    match k
    case Enabled => s.enabled
    case QueueUpdates => s.queueUpdates
    case TurnReminders => s.turnReminders
    case CrowdAlerts => s.crowdAlerts
    case Sound => s.sound
    case Vibration => s.vibration
  }

  /** `{ ...prev, [key]: value }`: one switch set, the others kept. */
  function With(s: NotificationSettings, k: NotificationKey, v: bool): (r: NotificationSettings)
    ensures forall k' :: Get(r, k') == if k' == k then v else Get(s, k')
  {
    match k
    case Enabled => s.(enabled := v)
    case QueueUpdates => s.(queueUpdates := v)
    case TurnReminders => s.(turnReminders := v)
    case CrowdAlerts => s.(crowdAlerts := v)
    case Sound => s.(sound := v)
    case Vibration => s.(vibration := v)
  }

  /** The `fieldMap`: the profile field each switch is stored in. */
  function FieldName(k: NotificationKey): string {
    match k
    case Enabled => "notificationsEnabled"
    case QueueUpdates => "queueUpdates"
    case TurnReminders => "turnReminders"
    case CrowdAlerts => "crowdAlerts"
    case Sound => "soundEnabled"
    case Vibration => "vibrationEnabled"
  }

  /** Distinct switches are stored in distinct fields, so a write touches one switch only. */
  lemma FieldNameInjective(k1: NotificationKey, k2: NotificationKey)
    ensures FieldName(k1) == FieldName(k2) ==> k1 == k2
  {
  }

  /** `data.field ?? true` for one switch: a missing or null field reads as on. */
  function Stored(flags: map<string, bool>, k: NotificationKey): bool {
    if FieldName(k) in flags then flags[FieldName(k)] else true
  }

  /** The settings `fetchSettings` derives from a profile document. */
  function FromStored(flags: map<string, bool>): (s: NotificationSettings)
    ensures forall k :: Get(s, k) == Stored(flags, k)
  {
    NotificationSettings(Stored(flags, Enabled), Stored(flags, QueueUpdates), Stored(flags, TurnReminders),
                         Stored(flags, CrowdAlerts), Stored(flags, Sound), Stored(flags, Vibration))
  }

  /** A profile without any of the fields loads as the defaults. */
  lemma EmptyProfileLoadsDefaults()
    ensures FromStored(map[]) == Defaults
  {
  }

  /** Writing one switch and fetching again gives what the page shows after the local update. */
  lemma WriteThenFetch(flags: map<string, bool>, k: NotificationKey, v: bool)
    ensures FromStored(flags[FieldName(k) := v]) == With(FromStored(flags), k, v)
  {
    var updated := flags[FieldName(k) := v];
    forall k' ensures Stored(updated, k') == if k' == k then v else Stored(flags, k') {
      FieldNameInjective(k, k');
    }
    var a := FromStored(updated);
    var b := With(FromStored(flags), k, v);
    assert Get(a, Enabled) == Get(b, Enabled) && Get(a, QueueUpdates) == Get(b, QueueUpdates) && Get(a, TurnReminders) == Get(b, TurnReminders) && Get(a, CrowdAlerts) == Get(b, CrowdAlerts) && Get(a, Sound) == Get(b, Sound) && Get(a, Vibration) == Get(b, Vibration);
  }

  class SettingsPage {
    const db: Database
    var settings: NotificationSettings
    var isLoading: bool
    var toast: Option<Ui.Toast>

    constructor (db: Database)
      ensures this.db == db && settings == Defaults && isLoading && toast == None
    {
      this.db := db;
      settings, isLoading, toast := Defaults, true, None;
    }

    /**
     * `fetchSettings`: with a user whose profile exists, the switches are
     * defaulted from it; a failed read or a missing profile keeps them.
     */
    method FetchSettings(user: Option<AuthContext.AuthUser>, readFails: bool)
      modifies this
      ensures !isLoading && toast == old(toast)
      ensures user.Some? && !readFails && user.value.uid in db.users ==> settings == FromStored(db.users[user.value.uid].flags)
      ensures user.None? || readFails || user.value.uid !in db.users ==> settings == old(settings)
    {
      if user.Some? && !readFails && user.value.uid in db.users {
        settings := FromStored(db.users[user.value.uid].flags);
      }
      isLoading := false;
    }

    /**
     * `updateSetting`: the local switch changes first and is kept whatever
     * happens to the write; a signed-in user's profile gets the one field.
     * Updating a profile that does not exist throws.
     */
    method UpdateSetting(user: Option<AuthContext.AuthUser>, key: NotificationKey, value: bool, writeFails: bool)
      modifies this, db
      ensures settings == With(old(settings), key, value) && isLoading == old(isLoading)
      ensures db.locations == old(db.locations) && db.checkins == old(db.checkins) && db.admins == old(db.admins)
      ensures user.None? ==> db.users == old(db.users) && toast == old(toast)
      ensures user.Some? && (writeFails || user.value.uid !in old(db.users)) ==>
        db.users == old(db.users) && toast == Some(Ui.Alert("Failed to update settings"))
      ensures user.Some? && !writeFails && user.value.uid in old(db.users) ==>
        var uid := user.value.uid;
        && db.users == old(db.users)[uid := old(db.users)[uid].(flags := old(db.users)[uid].flags[FieldName(key) := value])]
        && toast == Some(Ui.Notice("Settings updated"))
    {
      settings := With(settings, key, value);
      if user.Some? {
        var uid := user.value.uid;
        if writeFails || uid !in db.users {
          toast := Some(Ui.Alert("Failed to update settings"));
          return;
        }
        var profile := db.users[uid];
        db.users := db.users[uid := profile.(flags := profile.flags[FieldName(key) := value])];
        toast := Some(Ui.Notice("Settings updated"));
      }
    }
  }
}
