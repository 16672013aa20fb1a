/**
 * The authentication provider's reaction to a sign-in state change: admin
 * determination from the `admins` collection and the first-time user profile.
 */
module AuthContext {
  import opened Wrappers
  import opened DocumentStore

  /** The identity provider's user, reduced to the fields the application reads. */
  datatype AuthUser = AuthUser(uid: string, email: Option<string>, displayName: Option<string>, photoURL: Option<string>)

  /** An admin record exists for the address and its role is exactly "admin". */
  predicate IsAdminRecord(admins: map<string, AdminDoc>, email: string) {
    email in admins && admins[email].role == Some("admin")
  }

  /** The profile written for a user seen for the first time. */
  function NewProfile(user: AuthUser, now: Timestamp): (p: UserDoc)
    ensures p.totalTimeSaved == 0 && p.totalQueuesJoined == 0
    ensures p.currentLocationId == None && p.flags == map["notificationsEnabled" := true]
    ensures p.email == user.email && p.displayName == user.displayName && p.photoURL == user.photoURL
  {
    UserDoc(user.email, user.displayName, user.photoURL, 0, 0, None, None, Some(now), map["notificationsEnabled" := true])
  }

  class AuthProvider {
    const db: Database
    var user: Option<AuthUser>
    var loading: bool
    var isAdmin: bool

    constructor (db: Database)
      ensures this.db == db && user == None && loading && !isAdmin
    {
      this.db := db;
      user := None;
      loading := true;
      isAdmin := false;
    }

    /**
     * The `onAuthStateChanged` callback. `adminLookupFails` and `profileFails` say
     * whether the admin-document read and the profile read-or-write throw; both
     * errors are caught and logged.
     */
    method OnAuthStateChanged(firebaseUser: Option<AuthUser>, adminLookupFails: bool, profileFails: bool, now: Timestamp)
      modifies this, db
      ensures !loading && user == firebaseUser
      ensures db.locations == old(db.locations) && db.checkins == old(db.checkins) && db.admins == old(db.admins)
      ensures firebaseUser.None? ==> !isAdmin && db.users == old(db.users)
      ensures firebaseUser.Some? ==>
        var u := firebaseUser.value;
        && isAdmin == (if !Truthy(u.email) then old(isAdmin)
                       else !adminLookupFails && IsAdminRecord(db.admins, u.email.value))
        && db.users == (if u.uid in old(db.users) || profileFails then old(db.users)
                        else old(db.users)[u.uid := NewProfile(u, now)])
    {
      if firebaseUser.Some? {
        var u := firebaseUser.value;
        user := firebaseUser;
        if Truthy(u.email) {
          if adminLookupFails {
            isAdmin := false;
          } else if IsAdminRecord(db.admins, u.email.value) {
            isAdmin := true;
          } else {
            isAdmin := false;
          }
        }
        if !profileFails && u.uid !in db.users {
          db.users := db.users[u.uid := NewProfile(u, now)];
        }
      } else {
        user := None;
        isAdmin := false;
      }
      loading := false;
    }
  }
}
