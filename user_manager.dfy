/**
 * `data/UserManager.kt`: the credential store (user id, user name and token
 * in the app's preferences file) and the signed-in `currentUser`. The
 * preferences file is an in-memory map from key to typed value.
 */
module UserManager {
  import opened Common
  import opened Models

  const KEY_USER_ID: string := "user_id"
  const KEY_USERNAME: string := "username"
  const KEY_TOKEN: string := "token"

  /** A stored preference: `putInt` or `putString`. */
  datatype Pref = IntPref(n: int) | StringPref(s: string)

  /**
   * The typed getters throw unless each key holds the type it is read as;
   * the store only ever writes the user id as an int and the other two as strings.
   */
  predicate WellTyped(prefs: map<string, Pref>) {
    && (KEY_USER_ID in prefs ==> prefs[KEY_USER_ID].IntPref?)
    && (KEY_USERNAME in prefs ==> prefs[KEY_USERNAME].StringPref?)
    && (KEY_TOKEN in prefs ==> prefs[KEY_TOKEN].StringPref?)
  }

  /** `getInt(key, default)`; it throws when the key holds a string. */
  function GetInt(prefs: map<string, Pref>, key: string, default: int): (n: int)
    requires key in prefs ==> prefs[key].IntPref?
    ensures key in prefs ==> n == prefs[key].n
    ensures key !in prefs ==> n == default
  {
    if key in prefs then prefs[key].n else default
  }

  /** `getString(key, null)`; it throws when the key holds an int. */
  function GetString(prefs: map<string, Pref>, key: string): (s: Option<string>)
    requires key in prefs ==> prefs[key].StringPref?
    ensures s.Some? <==> key in prefs
    ensures s.Some? ==> prefs[key] == StringPref(s.value)
  {
    if key in prefs then Some(prefs[key].s) else None
  }

  /** Whether the stored credentials restore a session: an id other than -1, a name and a token. */
  predicate HasSession(prefs: map<string, Pref>): (restores: bool)
    requires WellTyped(prefs)
    ensures restores <==> KEY_USER_ID in prefs && prefs[KEY_USER_ID] != IntPref(-1)
                          && KEY_USERNAME in prefs && KEY_TOKEN in prefs
  {
    GetInt(prefs, KEY_USER_ID, -1) != -1 && GetString(prefs, KEY_USERNAME).Some? && GetString(prefs, KEY_TOKEN).Some?
  }

  class UserStore {
    var prefs: map<string, Pref>
    var currentUser: Option<User>

    predicate Valid()
      reads this
    {
      WellTyped(prefs)
    }

    /** The store as the app starts: the persisted preferences, and no signed-in user. */
    constructor (persisted: map<string, Pref>)
      requires WellTyped(persisted)
      ensures Valid() && prefs == persisted && currentUser == None
    {
      prefs := persisted;
      currentUser := None;
    }

    /** `getToken`: the stored token, or null. */
    function GetToken(): (t: Option<string>)
      requires Valid()
      reads this
      ensures t.Some? <==> KEY_TOKEN in prefs
      ensures t.Some? ==> prefs[KEY_TOKEN] == StringPref(t.value)
    {
      GetString(prefs, KEY_TOKEN)
    }

    /** `saveUserInfo`: writes exactly the three keys; the signed-in user is unchanged. */
    method SaveUserInfo(userId: int, username: string, token: string)
      requires Valid()
      modifies this
      ensures Valid()
      ensures prefs == old(prefs)[KEY_USER_ID := IntPref(userId)][KEY_USERNAME := StringPref(username)][KEY_TOKEN := StringPref(token)]
      ensures currentUser == old(currentUser)
      ensures GetToken() == Some(token)
      ensures forall k :: k in old(prefs) && k !in {KEY_USER_ID, KEY_USERNAME, KEY_TOKEN} ==> k in prefs && prefs[k] == old(prefs)[k]
    {
      prefs := prefs[KEY_USER_ID := IntPref(userId)];
      prefs := prefs[KEY_USERNAME := StringPref(username)];
      prefs := prefs[KEY_TOKEN := StringPref(token)];
    }

    /**
     * `loadUserInfo`: true exactly when the stored credentials restore a
     * session; then the signed-in user is `User(id, username)` with every
     * other field at its default, and otherwise nothing changes.
     */
    method LoadUserInfo() returns (restored: bool)
      requires Valid()
      modifies this
      ensures Valid() && prefs == old(prefs)
      ensures restored <==> HasSession(prefs)
      ensures restored ==> currentUser == Some(DefaultUser(prefs[KEY_USER_ID].n, prefs[KEY_USERNAME].s))
      ensures !restored ==> currentUser == old(currentUser)
    {
      var userId := GetInt(prefs, KEY_USER_ID, -1);
      var username := GetString(prefs, KEY_USERNAME);
      var token := GetString(prefs, KEY_TOKEN);
      if userId != -1 && username.Some? && token.Some? {
        currentUser := Some(DefaultUser(userId, username.value));
        restored := true;
      } else {
        restored := false;
      }
    }

    /** `clearUserInfo`: empties the store and signs the user out. */
    method ClearUserInfo()
      requires Valid()
      modifies this
      ensures Valid() && prefs == map[] && currentUser == None
      ensures GetToken() == None
    {
      prefs := map[];
      currentUser := None;
    }
  }

  /**
   * What was saved is what is restored: after `saveUserInfo(id, name, t)`
   * with `id != -1`, loading succeeds with that id and name, and the token
   * reads back as `t`.
   */
  lemma SaveThenLoad(prefs: map<string, Pref>, userId: int, username: string, token: string)
    requires WellTyped(prefs) && userId != -1
    ensures var saved := prefs[KEY_USER_ID := IntPref(userId)][KEY_USERNAME := StringPref(username)][KEY_TOKEN := StringPref(token)];
            WellTyped(saved) && HasSession(saved)
            && saved[KEY_USER_ID].n == userId && saved[KEY_USERNAME].s == username
            && GetString(saved, KEY_TOKEN) == Some(token)
  {
  }

  /** A saved id of -1 never restores a session, whatever else is stored. */
  lemma SavedSentinelNeverRestores(prefs: map<string, Pref>, username: string, token: string)
    requires WellTyped(prefs)
    ensures var saved := prefs[KEY_USER_ID := IntPref(-1)][KEY_USERNAME := StringPref(username)][KEY_TOKEN := StringPref(token)];
            WellTyped(saved) && !HasSession(saved)
  {
  }

  /** An empty store restores no session and holds no token. */
  lemma ClearedHasNoSession()
    ensures WellTyped(map[]) && !HasSession(map[]) && GetString(map[], KEY_TOKEN) == None
  {
  }
}
