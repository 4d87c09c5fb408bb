/** The user shapes of components/AuthContext.tsx and services/authService.ts: the stored
    account (with its password), the public profile handed to the UI, and partial updates. */
module Accounts {
  import opened Options

  /** `User`: what the session and the UI hold. It never carries a password. */
  datatype User = User(email: string, name: string, phoneNumber: string, profilePicture: Option<string>)

  /** An entry of the mock users table. */
  datatype Account = Account(email: string, password: string, name: string, phoneNumber: string, profilePicture: Option<string>)

  /** `Partial<User>`: the fields present override, the absent ones keep their value. */
  datatype UserUpdates = UserUpdates(
    email: Option<string>,
    name: Option<string>,
    phoneNumber: Option<string>,
    profilePicture: Option<string>)

  /** The account without its password (`const { password, ...rest } = account`, or the explicit
      field copy in `login`). */
  function PublicProfile(a: Account): User
  {
    User(a.email, a.name, a.phoneNumber, a.profilePicture)
  }

  /** `{ ...account, ...updates }`. */
  function ApplyToAccount(a: Account, u: UserUpdates): Account
  {
    Account(u.email.GetOr(a.email), a.password, u.name.GetOr(a.name),
            u.phoneNumber.GetOr(a.phoneNumber), if u.profilePicture.Some? then u.profilePicture else a.profilePicture)
  }

  /** `{ ...user, ...updates }`. */
  function ApplyToUser(x: User, u: UserUpdates): User
  {
    User(u.email.GetOr(x.email), u.name.GetOr(x.name),
         u.phoneNumber.GetOr(x.phoneNumber), if u.profilePicture.Some? then u.profilePicture else x.profilePicture)
  }

  /** Updating an account and then hiding its password gives the same profile as hiding the
      password first and updating the profile, and the password itself is never touched. */
  lemma UpdateCommutesWithProfile(a: Account, u: UserUpdates)
    ensures PublicProfile(ApplyToAccount(a, u)) == ApplyToUser(PublicProfile(a), u)
    ensures ApplyToAccount(a, u).password == a.password
  {
  }
}
