/** services/authService.ts: the mock account service over the users table kept in storage
    under `synthetica-users` (email to account, passwords in plain text). The simulated
    network delays are not modelled. */
module AuthService {
  import opened Options
  import opened Accounts
  import opened LocalStorage

  const USER_EXISTS: string := "User with this email already exists."
  const SIGNUP_OK: string := "Signup successful! Please log in."
  const LOGIN_OK: string := "Login successful"
  const LOGIN_FAILED: string := "Invalid email or password."
  const USER_NOT_FOUND: string := "User not found."
  const PROFILE_UPDATED: string := "Profile updated successfully."

  /** `{ success, user?, message }`. */
  datatype Response = Response(success: bool, user: Option<User>, message: string)

  /** `getUsers`: the stored table, or the empty table when it is missing or unreadable. */
  function GetUsers(entries: map<string, Stored>): map<string, Account>
  {
    if USERS_KEY in entries && entries[USERS_KEY].UserTable? then entries[USERS_KEY].users else map[]
  }

  /** The entries after `saveUsers(users)`. */
  function SaveUsers(entries: map<string, Stored>, users: map<string, Account>): map<string, Stored>
  {
    entries[USERS_KEY := UserTable(users)]
  }

  /** The account `signup` creates: no profile picture yet. */
  function NewAccount(email: string, password: string, name: string, phoneNumber: string): Account
  {
    Account(email, password, name, phoneNumber, None)
  }

  /** `login`: a success with the account's public profile exactly when an account is stored
      under the email and its password is the one given. */
  function Login(entries: map<string, Stored>, email: string, password: string): (r: Response)
    ensures r.success <==> email in GetUsers(entries) && GetUsers(entries)[email].password == password
    ensures r.success ==> r.user == Some(PublicProfile(GetUsers(entries)[email])) && r.message == LOGIN_OK
    ensures !r.success ==> r.user.None? && r.message == LOGIN_FAILED
  {
    var users := GetUsers(entries);
    if email in users && users[email].password == password then
      var user := users[email];
      Response(true, Some(User(user.email, user.name, user.phoneNumber, user.profilePicture)), LOGIN_OK)
    else
      Response(false, None, LOGIN_FAILED)
  }

  /** `signup`: refused when the email is taken (nothing is written); otherwise the new
      account is added to the table and the table saved. */
  method Signup(st: Store, email: string, password: string, name: string, phoneNumber: string) returns (r: Response)
    modifies st
    ensures r.user.None?
    ensures r.success <==> email !in GetUsers(old(st.entries))
    ensures r.success ==>
      && r.message == SIGNUP_OK
      && st.entries == SaveUsers(old(st.entries), GetUsers(old(st.entries))[email := NewAccount(email, password, name, phoneNumber)])
    ensures !r.success ==> r.message == USER_EXISTS && st.entries == old(st.entries)
  {
    var users := GetUsers(st.entries);
    if email in users {
      return Response(false, None, USER_EXISTS);
    }
    users := users[email := Account(email, password, name, phoneNumber, None)];
    st.SetItem(USERS_KEY, UserTable(users));
    r := Response(true, None, SIGNUP_OK);
  }

  /** The session after `updateUserProfile` for `email`: rewritten with the updates only when it
      is readable and belongs to that email; otherwise left as it is. */
  function UpdatedSession(entries: map<string, Stored>, email: string, updates: UserUpdates): map<string, Stored>
  {
    var session := SessionUser(entries);
    if session.Some? && session.value.email == email then
      entries[SESSION_KEY := SessionRecord(ApplyToUser(session.value, updates))]
    else entries
  }

  /** `updateUserProfile`: "User not found." without an account (nothing is written);
      otherwise the account updated (its password kept) and saved, the session rewritten when
      it is this user's, and the updated public profile returned. */
  method UpdateUserProfile(st: Store, email: string, updates: UserUpdates) returns (r: Response)
    modifies st
    ensures r.success <==> email in GetUsers(old(st.entries))
    ensures !r.success ==> r == Response(false, None, USER_NOT_FOUND) && st.entries == old(st.entries)
    ensures r.success ==>
      var account := ApplyToAccount(GetUsers(old(st.entries))[email], updates);
      && r == Response(true, Some(PublicProfile(account)), PROFILE_UPDATED)
      && st.entries == UpdatedSession(SaveUsers(old(st.entries), GetUsers(old(st.entries))[email := account]), email, updates)
  {
    var users := GetUsers(st.entries);
    if email !in users {
      return Response(false, None, USER_NOT_FOUND);
    }
    var updatedUser := ApplyToAccount(users[email], updates);
    users := users[email := updatedUser];
    st.SetItem(USERS_KEY, UserTable(users));
    assert SessionUser(st.entries) == SessionUser(old(st.entries));
    var session := SessionUser(st.entries);
    if session.Some? && session.value.email == email {
      st.SetItem(SESSION_KEY, SessionRecord(ApplyToUser(session.value, updates)));
    }
    r := Response(true, Some(PublicProfile(updatedUser)), PROFILE_UPDATED);
  }

  // ----- Properties across operations -----

  /** After a successful signup, logging in with the same email and password succeeds and yields
      the new profile with no picture; a wrong password is refused. */
  lemma SignupThenLogin(entries: map<string, Stored>, email: string, password: string, other: string, name: string, phoneNumber: string)
    requires email !in GetUsers(entries)
    ensures var after := SaveUsers(entries, GetUsers(entries)[email := NewAccount(email, password, name, phoneNumber)]);
      && Login(after, email, password) == Response(true, Some(User(email, name, phoneNumber, None)), LOGIN_OK)
      && (other != password ==> !Login(after, email, other).success)
  {
  }

  /** Signing up never alters an existing account and never touches the session. */
  lemma SignupKeepsOthers(entries: map<string, Stored>, email: string, password: string, name: string, phoneNumber: string, e: string)
    requires e != email
    ensures var after := SaveUsers(entries, GetUsers(entries)[email := NewAccount(email, password, name, phoneNumber)]);
      && (e in GetUsers(after) <==> e in GetUsers(entries))
      && (e in GetUsers(entries) ==> GetUsers(after)[e] == GetUsers(entries)[e])
      && SessionUser(after) == SessionUser(entries)
  {
  }

  /** An update keeps the password, so the same credentials still log in and yield exactly the
      returned profile; and the profile returned equals the updates applied to the old profile. */
  lemma UpdateKeepsLogin(entries: map<string, Stored>, email: string, updates: UserUpdates)
    requires email in GetUsers(entries)
    ensures var account := ApplyToAccount(GetUsers(entries)[email], updates);
      var after := UpdatedSession(SaveUsers(entries, GetUsers(entries)[email := account]), email, updates);
      && account.password == GetUsers(entries)[email].password
      && Login(after, email, account.password) == Response(true, Some(PublicProfile(account)), LOGIN_OK)
      && PublicProfile(account) == ApplyToUser(PublicProfile(GetUsers(entries)[email]), updates)
  {
    var account := ApplyToAccount(GetUsers(entries)[email], updates);
    UpdateCommutesWithProfile(GetUsers(entries)[email], updates);
    var saved := SaveUsers(entries, GetUsers(entries)[email := account]);
    assert GetUsers(UpdatedSession(saved, email, updates)) == GetUsers(saved);
  }

  /** The session is rewritten only for its own user: another user's update leaves it as it is,
      and the session's user after an update of its own account is the updated profile when the
      session and the account agreed before. */
  lemma UpdateSessionOwnership(entries: map<string, Stored>, email: string, updates: UserUpdates)
    ensures SessionUser(entries).Some? && SessionUser(entries).value.email != email ==>
      UpdatedSession(entries, email, updates) == entries
    ensures SessionUser(entries).None? ==> UpdatedSession(entries, email, updates) == entries
    ensures SessionUser(entries).Some? && SessionUser(entries).value.email == email ==>
      SessionUser(UpdatedSession(entries, email, updates)) == Some(ApplyToUser(SessionUser(entries).value, updates))
  {
  }
}
