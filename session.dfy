/** components/AuthContext.tsx: the `AuthProvider`'s state (the current user and the loading
    flag) as an `AuthProvider` object over the shared storage. */
module AuthContext {
  import opened Options
  import opened Accounts
  import opened LocalStorage
  import AuthService

  const NO_USER: string := "No user logged in."

  /** What the provider's `login` and `signup` hand back: `{ success, message }`. */
  datatype Outcome = Outcome(success: bool, message: string)

  class AuthProvider {
    var currentUser: Option<User>
    var loading: bool

    /** The first render: no user yet, still loading. */
    constructor ()
      ensures currentUser.None? && loading
    {
      currentUser := None;
      loading := true;
    }

    /** `isAuthenticated`. */
    predicate IsAuthenticated()
      reads this
    {
      currentUser.Some?
    }

    /** The provider renders its children only once loading is over. */
    predicate ShowsChildren()
      reads this
    {
      !loading
    }

    /** The mount effect: a readable session restores its user; an unreadable one is removed;
        without a session the user stays absent. Loading ends on every path. */
    method Mount(st: Store)
      modifies this, st
      ensures !loading
      ensures SESSION_KEY !in old(st.entries) ==> currentUser == old(currentUser) && st.entries == old(st.entries)
      ensures SESSION_KEY in old(st.entries) && old(st.entries)[SESSION_KEY].Unparseable? ==>
        currentUser == old(currentUser) && st.entries == old(st.entries) - {SESSION_KEY}
      ensures SESSION_KEY in old(st.entries) && !old(st.entries)[SESSION_KEY].Unparseable? ==>
        currentUser == SessionUser(old(st.entries)) && st.entries == old(st.entries)
    {
      if SESSION_KEY in st.entries {
        var stored := st.entries[SESSION_KEY];
        if stored.Unparseable? {
          st.RemoveItem(SESSION_KEY);
        } else if stored.SessionRecord? {
          currentUser := Some(stored.user);
        } else {
          currentUser := None;
        }
      }
      loading := false;
    }

    /** `signup`: passed straight to the service. */
    method Signup(st: Store, email: string, password: string, name: string, phoneNumber: string) returns (r: Outcome)
      modifies st
      ensures r.success <==> email !in AuthService.GetUsers(old(st.entries))
      ensures r.success ==> st.entries == AuthService.SaveUsers(old(st.entries),
        AuthService.GetUsers(old(st.entries))[email := AuthService.NewAccount(email, password, name, phoneNumber)])
      ensures !r.success ==> st.entries == old(st.entries)
      ensures r.message == (if r.success then AuthService.SIGNUP_OK else AuthService.USER_EXISTS)
    {
      var response := AuthService.Signup(st, email, password, name, phoneNumber);
      r := Outcome(response.success, response.message);
    }

    /** `login`: on success the profile becomes the stored session and the current user; on
        failure nothing changes. */
    method Login(st: Store, email: string, password: string) returns (r: Outcome)
      modifies this, st
      ensures var response := AuthService.Login(old(st.entries), email, password);
        && r == Outcome(response.success, response.message)
        && (response.success ==>
              currentUser == response.user && st.entries == old(st.entries)[SESSION_KEY := SessionRecord(response.user.value)])
        && (!response.success ==> currentUser == old(currentUser) && st.entries == old(st.entries))
      ensures loading == old(loading)
    {
      var response := AuthService.Login(st.entries, email, password);
      if response.success && response.user.Some? {
        st.SetItem(SESSION_KEY, SessionRecord(response.user.value));
        currentUser := response.user;
      }
      r := Outcome(response.success, response.message);
    }

    /** `logout`: the session removed and the user cleared. */
    method Logout(st: Store)
      modifies this, st
      ensures currentUser.None? && st.entries == old(st.entries) - {SESSION_KEY}
      ensures loading == old(loading)
    {
      st.RemoveItem(SESSION_KEY);
      currentUser := None;
    }

    /** `updateUserProfile`: refused without a current user; otherwise the service updates the
        current user's account (and the session), and on success the returned profile becomes
        the current user. */
    method UpdateUserProfile(st: Store, updates: UserUpdates) returns (r: AuthService.Response)
      modifies this, st
      ensures old(currentUser).None? ==>
        r == AuthService.Response(false, None, NO_USER) && currentUser == old(currentUser) && st.entries == old(st.entries)
      ensures old(currentUser).Some? ==>
        var email := old(currentUser).value.email;
        && (r.success <==> email in AuthService.GetUsers(old(st.entries)))
        && r.message == (if r.success then AuthService.PROFILE_UPDATED else AuthService.USER_NOT_FOUND)
        && (r.success ==>
              var account := ApplyToAccount(AuthService.GetUsers(old(st.entries))[email], updates);
              && currentUser == Some(PublicProfile(account)) && r.user == currentUser
              && st.entries == AuthService.UpdatedSession(
                   AuthService.SaveUsers(old(st.entries), AuthService.GetUsers(old(st.entries))[email := account]), email, updates))
        && (!r.success ==> currentUser == old(currentUser) && st.entries == old(st.entries))
      ensures loading == old(loading)
    {
      if currentUser.None? {
        return AuthService.Response(false, None, NO_USER);
      }
      r := AuthService.UpdateUserProfile(st, currentUser.value.email, updates);
      if r.success && r.user.Some? {
        currentUser := r.user;
      }
    }
  }

  /** After a logout, whatever the history service reads has no session user. */
  lemma LogoutEndsSession(entries: map<string, Stored>)
    ensures SessionUser(entries - {SESSION_KEY}).None?
  {
  }

  /** A login's session is readable by the services and names the user that logged in. */
  lemma LoginSessionReadable(entries: map<string, Stored>, email: string, password: string)
    requires AuthService.Login(entries, email, password).success
    ensures var user := AuthService.Login(entries, email, password).user.value;
      && SessionUser(entries[SESSION_KEY := SessionRecord(user)]) == Some(user)
      && user.email == AuthService.GetUsers(entries)[email].email
  {
  }
}
