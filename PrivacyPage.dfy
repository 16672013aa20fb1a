/**
 * The privacy preferences page: four switches, defaulted from the user's
 * profile document and written back one field at a time under their own names.
 */
module PrivacyPage {
  import opened Wrappers
  import opened DocumentStore
  import AuthContext
  import Ui

  datatype PrivacyKey = ShowProfile | ShareLocation | ShareActivity | AnonymousMode

  datatype PrivacySettings = PrivacySettings(showProfile: bool, shareLocation: bool, shareActivity: bool, anonymousMode: bool)

  function Get(s: PrivacySettings, k: PrivacyKey): bool {
    match k
    case ShowProfile => s.showProfile
    case ShareLocation => s.shareLocation
    case ShareActivity => s.shareActivity
    case AnonymousMode => s.anonymousMode
  }

  /** The value a switch has before loading and when its field is missing or null: all on except anonymous mode. */
  function Default(k: PrivacyKey): (b: bool)
    ensures b <==> k != AnonymousMode
  {
    k != AnonymousMode
  }

  const Defaults := PrivacySettings(true, true, true, false)

  lemma DefaultsAgree()
    ensures forall k :: Get(Defaults, k) == Default(k)
  {
  }

  function With(s: PrivacySettings, k: PrivacyKey, v: bool): (r: PrivacySettings)
    ensures forall k' :: Get(r, k') == if k' == k then v else Get(s, k')
  {
    match k
    case ShowProfile => s.(showProfile := v)
    case ShareLocation => s.(shareLocation := v)
    case ShareActivity => s.(shareActivity := v)
    case AnonymousMode => s.(anonymousMode := v)
  }

  /** The profile field of a switch is the switch's own name. */
  function FieldName(k: PrivacyKey): string {
    match k
    case ShowProfile => "showProfile"
    case ShareLocation => "shareLocation"
    case ShareActivity => "shareActivity"
    case AnonymousMode => "anonymousMode"
  }

  lemma FieldNameInjective(k1: PrivacyKey, k2: PrivacyKey)
    ensures FieldName(k1) == FieldName(k2) ==> k1 == k2
  {
  }

  function Stored(flags: map<string, bool>, k: PrivacyKey): bool {
    if FieldName(k) in flags then flags[FieldName(k)] else Default(k)
  }

  /** The settings `fetchSettings` derives from a profile document. */
  function FromStored(flags: map<string, bool>): (s: PrivacySettings)
    ensures forall k :: Get(s, k) == Stored(flags, k)
  {
    PrivacySettings(Stored(flags, ShowProfile), Stored(flags, ShareLocation), Stored(flags, ShareActivity),
                    Stored(flags, AnonymousMode))
  }

  lemma EmptyProfileLoadsDefaults()
    ensures FromStored(map[]) == Defaults
  {
  }

  /** Writing one switch and fetching again gives what the page shows after the local update. */
  lemma WriteThenFetch(flags: map<string, bool>, k: PrivacyKey, v: bool)
    ensures FromStored(flags[FieldName(k) := v]) == With(FromStored(flags), k, v)
  {
    var updated := flags[FieldName(k) := v];
    forall k' ensures Stored(updated, k') == if k' == k then v else Stored(flags, k') {
      FieldNameInjective(k, k');
    }
    var a := FromStored(updated);
    var b := With(FromStored(flags), k, v);
    assert Get(a, ShowProfile) == Get(b, ShowProfile) && Get(a, ShareLocation) == Get(b, ShareLocation) && Get(a, ShareActivity) == Get(b, ShareActivity) && Get(a, AnonymousMode) == Get(b, AnonymousMode);
  }

  class SettingsPage {
    const db: Database
    var settings: PrivacySettings
    var isLoading: bool
    var toast: Option<Ui.Toast>

    constructor (db: Database)
      ensures this.db == db && settings == Defaults && isLoading && toast == None
    {
      this.db := db;
      settings, isLoading, toast := Defaults, true, None;
    }

    method FetchSettings(user: Option<AuthContext.AuthUser>, readFails: bool)
      modifies this
      ensures !isLoading && toast == old(toast)
      ensures user.Some? && !readFails && user.value.uid in db.users ==> settings == FromStored(db.users[user.value.uid].flags)
      ensures user.None? || readFails || user.value.uid !in db.users ==> settings == old(settings)
    {
      if user.Some? && !readFails && user.value.uid in db.users {
        settings := FromStored(db.users[user.value.uid].flags);
      }
      isLoading := false;
    }

    method UpdateSetting(user: Option<AuthContext.AuthUser>, key: PrivacyKey, value: bool, writeFails: bool)
      modifies this, db
      ensures settings == With(old(settings), key, value) && isLoading == old(isLoading)
      ensures db.locations == old(db.locations) && db.checkins == old(db.checkins) && db.admins == old(db.admins)
      ensures user.None? ==> db.users == old(db.users) && toast == old(toast)
      ensures user.Some? && (writeFails || user.value.uid !in old(db.users)) ==>
        db.users == old(db.users) && toast == Some(Ui.Alert("Failed to update settings"))
      ensures user.Some? && !writeFails && user.value.uid in old(db.users) ==>
        var uid := user.value.uid;
        && db.users == old(db.users)[uid := old(db.users)[uid].(flags := old(db.users)[uid].flags[FieldName(key) := value])]
        && toast == Some(Ui.Notice("Privacy settings updated"))
    {
      settings := With(settings, key, value);
      if user.Some? {
        var uid := user.value.uid;
        if writeFails || uid !in db.users {
          toast := Some(Ui.Alert("Failed to update settings"));
          return;
        }
        var profile := db.users[uid];
        db.users := db.users[uid := profile.(flags := profile.flags[FieldName(key) := value])];
        toast := Some(Ui.Notice("Privacy settings updated"));
      }
    }
  }
}
