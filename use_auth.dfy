/** The session hook: at launch it restores the session from the secure store, enforcing
    a strict seven-day lifetime, and `logout` clears the stored session. The hook's five
    state cells are the fields of `AuthHook`; the secure store is a `KeyValueStore`. */
module Auth {
  import opened Optional
  import opened Storage

  const AuthTokenKey := "auth_token"
  const LastLoginKey := "last_login"
  const UserTypeKey := "user_type"
  const UserKey := "user"

  /** The keys `logout` deletes, in its order. */
  const SessionKeys := [AuthTokenKey, LastLoginKey, UserTypeKey, UserKey]
  /** The keys the launch check deletes on expiry, in its order. */
  const ExpiryKeys := [AuthTokenKey, LastLoginKey]

  const DayMillis := 1000 * 60 * 60 * 24

  /** The hook's state cells. `user` holds the stored profile text (its JSON parse is
      not modelled). */
  datatype AuthState = AuthState(
    isLoading: bool,
    isAuthenticated: bool,
    userTypeSaved: string,
    returnUser: bool,
    user: Option<string>)

  /** The cells as `useState` initialises them. */
  const Initial := AuthState(true, false, "", false, None)

  /** A state of the hook together with the contents of the secure store. */
  datatype Step = Step(state: AuthState, store: map<string, string>)

  // ---------------------------------------------------------------------------
  // Sequential deletes that stop at the first rejection
  // ---------------------------------------------------------------------------

  /** The position of the first key whose delete rejects, or `|keys|` if none does. */
  function FirstFailure(keys: seq<string>, failing: set<string>): (n: nat)
    ensures n <= |keys|
    ensures forall i :: 0 <= i < n ==> keys[i] !in failing
    ensures n < |keys| ==> keys[n] in failing
  {
    if keys == [] then 0
    else if keys[0] in failing then 0
    else 1 + FirstFailure(keys[1..], failing)
  }

  datatype Deletion = Deletion(store: map<string, string>, completed: bool)

  /** A run of awaited `deleteItemAsync` calls: each key is removed in turn until one
      delete rejects, which aborts the rest. */
  function DeleteInOrder(store: map<string, string>, keys: seq<string>, failing: set<string>): (r: Deletion)
    ensures r.store.Keys <= store.Keys
    ensures forall k :: k in r.store ==> r.store[k] == store[k]
  {
    if keys == [] then Deletion(store, true)
    else if keys[0] in failing then Deletion(store, false)
    else DeleteInOrder(store - {keys[0]}, keys[1..], failing)
  }

  /** The deletes complete exactly when no key rejects; the keys before the first
      rejected one are gone, and every other entry is kept as it was. */
  lemma {:induction false} DeleteInOrderSpec(store: map<string, string>, keys: seq<string>, failing: set<string>)
    ensures DeleteInOrder(store, keys, failing).completed <==> FirstFailure(keys, failing) == |keys|
    ensures forall k :: k in DeleteInOrder(store, keys, failing).store <==>
      k in store && k !in keys[..FirstFailure(keys, failing)]
    ensures forall k :: k in DeleteInOrder(store, keys, failing).store ==>
      DeleteInOrder(store, keys, failing).store[k] == store[k]
  {
    if keys != [] && keys[0] !in failing {
      DeleteInOrderSpec(store - {keys[0]}, keys[1..], failing);
      assert forall k :: k in keys[..FirstFailure(keys, failing)] <==>
        k == keys[0] || k in keys[1..][..FirstFailure(keys[1..], failing)];
    }
  }

  /** When no delete rejects, exactly the given keys are gone and nothing else changed. */
  lemma {:induction false} DeleteAllSucceed(store: map<string, string>, keys: seq<string>, failing: set<string>)
    requires forall i :: 0 <= i < |keys| ==> keys[i] !in failing
    ensures DeleteInOrder(store, keys, failing).completed
    ensures forall k ::
      Lookup(DeleteInOrder(store, keys, failing).store, k) == (if k in keys then None else Lookup(store, k))
  {
    DeleteInOrderSpec(store, keys, failing);
    assert keys[..FirstFailure(keys, failing)] == keys;
  }

  // ---------------------------------------------------------------------------
  // checkAuth
  // ---------------------------------------------------------------------------

  /** `daysSinceLogin`: elapsed milliseconds divided by the length of a day. */
  function DaysSince(loginTime: int, now: int): real {
    (now - loginTime) as real / DayMillis as real
  }

  /** The session is younger than seven days. `None` is an unparsable timestamp (NaN),
      for which the comparison is false. */
  predicate Fresh(loginTime: Option<int>, now: int) {
    loginTime.Some? && DaysSince(loginTime.value, now) < 7.0
  }

  /** The seven-day test is exactly an integer comparison of milliseconds. */
  lemma FreshWithinWeek(loginTime: int, now: int)
    ensures Fresh(Some(loginTime), now) <==> now - loginTime < 7 * DayMillis
  {
  }

  /** Both a (truthy) token and a (truthy) last-login timestamp are stored. */
  predicate HasSession(store: map<string, string>) {
    Truthy(Lookup(store, AuthTokenKey)) && Truthy(Lookup(store, LastLoginKey))
  }

  /** A stored session younger than seven days. */
  predicate ValidSession(store: map<string, string>, now: int, parse: string -> Option<int>) {
    HasSession(store) && Fresh(parse(store[LastLoginKey]), now)
  }

  /** A stored session seven days old or more (or with an unparsable timestamp). */
  predicate ExpiredSession(store: map<string, string>, now: int, parse: string -> Option<int>) {
    HasSession(store) && !Fresh(parse(store[LastLoginKey]), now)
  }

  /** An expired session whose cleanup rejects: `checkAuth` then aborts. */
  predicate CleanupFails(store: map<string, string>, now: int, parse: string -> Option<int>, failing: set<string>) {
    ExpiredSession(store, now, parse) && (AuthTokenKey in failing || LastLoginKey in failing)
  }

  /** The effect of `checkAuth` on the hook's cells and on the store. `now` is the clock,
      `parse` is `new Date(text).getTime()` and `failing` the keys whose delete rejects. */
  function CheckAuthStep(s: AuthState, store: map<string, string>, now: int,
                         parse: string -> Option<int>, failing: set<string>): (r: Step)
    ensures r.state.returnUser == (HasSession(store) || s.returnUser)
    ensures r.state.user.Some? <==> Truthy(Lookup(store, UserKey)) || s.user.Some?
    ensures !ExpiredSession(store, now, parse) ==> r.store == store
  {
    var s1 := if Truthy(Lookup(store, UserKey)) then s.(user := Some(store[UserKey])) else s;
    if HasSession(store) then
      var s2 := s1.(returnUser := true);
      if Fresh(parse(store[LastLoginKey]), now) then
        Step(s2.(isAuthenticated := true, userTypeSaved := Lookup(store, UserTypeKey).GetOr(""), isLoading := false), store)
      else
        var d := DeleteInOrder(store, ExpiryKeys, failing);
        if d.completed then
          Step(s2.(isAuthenticated := false, userTypeSaved := "", isLoading := false), d.store)
        else
          Step(s2, d.store)
    else
      Step(s1.(isAuthenticated := false, userTypeSaved := "", isLoading := false), store)
  }

  /** What `checkAuth` promises, branch by branch. */
  lemma CheckAuthSpec(s: AuthState, store: map<string, string>, now: int,
                      parse: string -> Option<int>, failing: set<string>)
    ensures var r := CheckAuthStep(s, store, now, parse, failing);
      // the stored profile is shown whatever the token says
      && r.state.user == (if Truthy(Lookup(store, UserKey)) then Some(store[UserKey]) else s.user)
      // a returning user is anyone with a token and a timestamp, expired or not
      && r.state.returnUser == (HasSession(store) || s.returnUser)
      && r.state.isAuthenticated == (ValidSession(store, now, parse) || (CleanupFails(store, now, parse, failing) && s.isAuthenticated))
      // loading ends on every path that completes
      && r.state.isLoading == (CleanupFails(store, now, parse, failing) && s.isLoading)
      && (ValidSession(store, now, parse) ==>
            r.state.userTypeSaved == Lookup(store, UserTypeKey).GetOr("") && r.store == store)
      && (!HasSession(store) ==> r.state.userTypeSaved == "" && r.store == store)
      // on expiry only the token and the timestamp are deleted
      && (ExpiredSession(store, now, parse) && !CleanupFails(store, now, parse, failing) ==>
            r.state.userTypeSaved == "" && r.store == store - {AuthTokenKey, LastLoginKey})
      && (forall k :: k != AuthTokenKey && k != LastLoginKey ==> Lookup(r.store, k) == Lookup(store, k))
  {
    DeleteInOrderSpec(store, ExpiryKeys, failing);
    assert ExpiryKeys[..2] == ExpiryKeys && ExpiryKeys[..1] == [AuthTokenKey];
    var d := DeleteInOrder(store, ExpiryKeys, failing);
    if ExpiredSession(store, now, parse) && !CleanupFails(store, now, parse, failing) {
      assert d.store == store - {AuthTokenKey, LastLoginKey};
    }
  }

  // ---------------------------------------------------------------------------
  // logout
  // ---------------------------------------------------------------------------

  /** The in-memory reset `logout` performs after its deletes. */
  function SignedOut(s: AuthState): AuthState {
    s.(isAuthenticated := false, user := None, userTypeSaved := "", returnUser := false)
  }

  /** The effect of `logout`: the four session keys are deleted in order and the cells
      reset; a rejected delete skips the rest. */
  function LogoutStep(s: AuthState, store: map<string, string>, failing: set<string>): (r: Step)
    ensures r.state == SignedOut(s) || r.state == s
    ensures r.store.Keys <= store.Keys
  {
    var d := DeleteInOrder(store, SessionKeys, failing);
    if d.completed then Step(SignedOut(s), d.store) else Step(s, d.store)
  }

  /** What `logout` promises: on success all four keys are gone and the cells are reset;
      a rejected delete leaves the cells alone, the keys from the rejected one on stay;
      other keys and the loading flag are never touched. */
  lemma LogoutSpec(s: AuthState, store: map<string, string>, failing: set<string>)
    ensures var r := LogoutStep(s, store, failing);
      && r.state.isLoading == s.isLoading
      && (forall k :: k !in SessionKeys ==> Lookup(r.store, k) == Lookup(store, k))
      && ((forall i :: 0 <= i < |SessionKeys| ==> SessionKeys[i] !in failing) ==>
            r.state == SignedOut(s) && forall k :: k in SessionKeys ==> k !in r.store)
      && ((exists i :: 0 <= i < |SessionKeys| && SessionKeys[i] in failing) ==>
            r.state == s &&
            (forall i :: 0 <= i < FirstFailure(SessionKeys, failing) ==> SessionKeys[i] !in r.store) &&
            (forall i :: FirstFailure(SessionKeys, failing) <= i < |SessionKeys| ==>
               Lookup(r.store, SessionKeys[i]) == Lookup(store, SessionKeys[i])))
  {
    DeleteInOrderSpec(store, SessionKeys, failing);
    var n := FirstFailure(SessionKeys, failing);
    forall i | 0 <= i < |SessionKeys|
      ensures SessionKeys[i] in SessionKeys[..n] <==> i < n
    {
      // the four keys are distinct
      assert forall j :: 0 <= j < |SessionKeys| && j != i ==> SessionKeys[j] != SessionKeys[i];
    }
  }

  // ---------------------------------------------------------------------------
  // A stored login
  // ---------------------------------------------------------------------------

  /** A store holding the four keys `checkAuth` reads, as the sign-in screen writes them
      after a successful login: token, timestamp, role ("customer" or "admin") and
      profile, in that order. */
  function LoggedIn(store: map<string, string>, token: string, loginIso: string, role: string, profile: string): (r: map<string, string>)
    ensures Lookup(r, AuthTokenKey) == Some(token) && Lookup(r, LastLoginKey) == Some(loginIso)
    ensures Lookup(r, UserTypeKey) == Some(role) && Lookup(r, UserKey) == Some(profile)
    ensures forall k :: k !in SessionKeys ==> Lookup(r, k) == Lookup(store, k)
  {
    store[AuthTokenKey := token][LastLoginKey := loginIso][UserTypeKey := role][UserKey := profile]
  }

  // ---------------------------------------------------------------------------
  // The hook
  // ---------------------------------------------------------------------------

  class AuthHook {
    var isLoading: bool
    var isAuthenticated: bool
    var userTypeSaved: string
    var returnUser: bool
    var user: Option<string>

    function State(): AuthState
      reads this
    {
      AuthState(isLoading, isAuthenticated, userTypeSaved, returnUser, user)
    }

    constructor ()
      ensures State() == Initial
    {
      isLoading, isAuthenticated, userTypeSaved, returnUser, user := true, false, "", false, None;
    }

    /** `checkAuth`, run once on mount. */
    method CheckAuth(store: KeyValueStore, now: int, parse: string -> Option<int>, failing: set<string>)
      modifies this, store
      ensures Step(State(), store.items) == CheckAuthStep(old(State()), old(store.items), now, parse, failing)
    {
      ghost var items := store.items;
      var token := store.GetItem(AuthTokenKey);
      var lastLogin := store.GetItem(LastLoginKey);
      var currUserType := store.GetItem(UserTypeKey);
      var storedUser := store.GetItem(UserKey);

      if Truthy(storedUser) {
        user := storedUser;
      }

      if Truthy(token) && Truthy(lastLogin) {
        var loginTime := parse(lastLogin.value);
        returnUser := true;
        if Fresh(loginTime, now) {
          isAuthenticated := true;
          userTypeSaved := currUserType.GetOr("");
        } else {
          ghost var rest := ExpiryKeys;
          assert rest[1..][1..] == [];
          var ok := store.DeleteItem(AuthTokenKey, AuthTokenKey in failing);
          if !ok {
            return;
          }
          rest := rest[1..];
          assert DeleteInOrder(items, ExpiryKeys, failing) == DeleteInOrder(store.items, rest, failing);
          ok := store.DeleteItem(LastLoginKey, LastLoginKey in failing);
          if !ok {
            return;
          }
          rest := rest[1..];
          assert DeleteInOrder(items, ExpiryKeys, failing) == DeleteInOrder(store.items, rest, failing);
          assert rest == [];
          isAuthenticated := false;
          userTypeSaved := "";
        }
      } else {
        isAuthenticated := false;
        userTypeSaved := "";
      }

      isLoading := false;
    }

    /** `logout`: never reports a failure to its caller. */
    method Logout(store: KeyValueStore, failing: set<string>)
      modifies this, store
      ensures Step(State(), store.items) == LogoutStep(old(State()), old(store.items), failing)
    {
      ghost var items := store.items;
      ghost var rest := SessionKeys;
      assert rest[1..][1..][1..][1..] == [];
      var ok := store.DeleteItem(AuthTokenKey, AuthTokenKey in failing);
      if !ok {
        return;
      }
      rest := rest[1..];
      assert DeleteInOrder(items, SessionKeys, failing) == DeleteInOrder(store.items, rest, failing);
      ok := store.DeleteItem(LastLoginKey, LastLoginKey in failing);
      if !ok {
        return;
      }
      rest := rest[1..];
      assert DeleteInOrder(items, SessionKeys, failing) == DeleteInOrder(store.items, rest, failing);
      ok := store.DeleteItem(UserTypeKey, UserTypeKey in failing);
      if !ok {
        return;
      }
      rest := rest[1..];
      assert DeleteInOrder(items, SessionKeys, failing) == DeleteInOrder(store.items, rest, failing);
      ok := store.DeleteItem(UserKey, UserKey in failing);
      if !ok {
        return;
      }
      rest := rest[1..];
      assert DeleteInOrder(items, SessionKeys, failing) == DeleteInOrder(store.items, rest, failing);
      assert rest == [];
      isAuthenticated := false;
      user := None;
      userTypeSaved := "";
      returnUser := false;
    }
  }

  // ---------------------------------------------------------------------------
  // Properties across calls
  // ---------------------------------------------------------------------------

  /** A session stored at login and checked within seven days restores the same role
      and profile. */
  lemma ValidLoginRestores(store: map<string, string>, token: string, loginIso: string, role: string, profile: string,
                           loginTime: int, now: int, parse: string -> Option<int>, failing: set<string>)
    requires token != "" && loginIso != "" && profile != ""
    requires parse(loginIso) == Some(loginTime) && now - loginTime < 7 * DayMillis
    ensures CheckAuthStep(Initial, LoggedIn(store, token, loginIso, role, profile), now, parse, failing)
      == Step(AuthState(false, true, role, true, Some(profile)), LoggedIn(store, token, loginIso, role, profile))
  {
  }

  /** A session checked seven days or more after login is dropped: token and timestamp
      are deleted while role and profile stay behind, and the stale profile is shown. */
  lemma ExpiredLoginKeepsProfile(store: map<string, string>, token: string, loginIso: string, role: string, profile: string,
                                 loginTime: int, now: int, parse: string -> Option<int>, failing: set<string>)
    requires token != "" && loginIso != "" && profile != ""
    requires parse(loginIso) == Some(loginTime) && now - loginTime >= 7 * DayMillis
    requires AuthTokenKey !in failing && LastLoginKey !in failing
    ensures var r := CheckAuthStep(Initial, LoggedIn(store, token, loginIso, role, profile), now, parse, failing);
      r.state == AuthState(false, false, "", true, Some(profile)) &&
      AuthTokenKey !in r.store && LastLoginKey !in r.store &&
      Lookup(r.store, UserTypeKey) == Some(role) && Lookup(r.store, UserKey) == Some(profile)
  {
    FreshWithinWeek(loginTime, now);
    CheckAuthSpec(Initial, LoggedIn(store, token, loginIso, role, profile), now, parse, failing);
  }

  /** After an expiry cleanup the next launch finds no session and no returning user,
      whatever the clock says. */
  lemma RelaunchAfterExpiry(store: map<string, string>, now: int, later: int, parse: string -> Option<int>, failing: set<string>, failing': set<string>)
    requires ExpiredSession(store, now, parse) && !CleanupFails(store, now, parse, failing)
    ensures var next := CheckAuthStep(Initial, CheckAuthStep(Initial, store, now, parse, failing).store, later, parse, failing');
      !next.state.isAuthenticated && !next.state.returnUser && !next.state.isLoading && next.state.userTypeSaved == ""
  {
  }

  /** After a logout that went through, the next launch starts signed out with no
      profile. */
  lemma RelaunchAfterLogout(s: AuthState, store: map<string, string>, now: int, parse: string -> Option<int>, failing: set<string>)
    requires forall i :: 0 <= i < |SessionKeys| ==> SessionKeys[i] !in failing
    ensures var out := LogoutStep(s, store, failing).store;
      CheckAuthStep(Initial, out, now, parse, failing) == Step(AuthState(false, false, "", false, None), out)
  {
    LogoutSpec(s, store, failing);
    var out := LogoutStep(s, store, failing).store;
    assert AuthTokenKey in SessionKeys && UserKey in SessionKeys;
    CheckAuthSpec(Initial, out, now, parse, failing);
  }
}
