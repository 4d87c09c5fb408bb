/** components/AuthPage.tsx: the sign-in / sign-up form's state as an `AuthForm` object, its
    guard checks in order, and the mode toggle. */
module AuthPage {
  import opened Options
  import opened Text
  import opened Accounts
  import opened LocalStorage
  import AuthService
  import opened AuthContext

  const CREDENTIALS_REQUIRED: string := "Email and password are required."
  const NAME_REQUIRED: string := "Name is required for signup."
  const PASSWORD_TOO_SHORT: string := "Password must be at least 8 characters long."
  const MIN_PASSWORD_LENGTH: nat := 8

  /** The first guard of `handleSubmit` that rejects the form, if any. The name test
      `!name.trim()` holds exactly for a name of whitespace only (`TrimEmptyIff`). */
  function FormError(isLogin: bool, email: string, password: string, name: string): Option<string>
  {
    if email == [] || password == [] then Some(CREDENTIALS_REQUIRED)
    else if !isLogin && AllWhitespace(name) then Some(NAME_REQUIRED)
    else if !isLogin && |password| < MIN_PASSWORD_LENGTH then Some(PASSWORD_TOO_SHORT)
    else None
  }

  /** The guards in order: missing credentials first in both modes; in sign-up mode a name that
      trims to nothing, then a password under 8 characters; in login mode nothing else. */
  lemma FormErrorSpec(isLogin: bool, email: string, password: string, name: string)
    ensures FormError(isLogin, email, password, name) == Some(CREDENTIALS_REQUIRED) <==> email == [] || password == []
    ensures isLogin ==> (FormError(isLogin, email, password, name).None? <==> email != [] && password != [])
    ensures !isLogin ==>
      (FormError(isLogin, email, password, name) == Some(NAME_REQUIRED) <==>
        email != [] && password != [] && Trim(name) == [])
    ensures !isLogin ==>
      (FormError(isLogin, email, password, name) == Some(PASSWORD_TOO_SHORT) <==>
        email != [] && password != [] && Trim(name) != [] && |password| < 8)
    ensures !isLogin ==>
      (FormError(isLogin, email, password, name).None? <==>
        email != [] && password != [] && Trim(name) != [] && |password| >= 8)
  {
    TrimEmptyIff(name);
  }

  class AuthForm {
    var isLogin: bool
    var name: string
    var phoneNumber: string
    var email: string
    var password: string
    var error: string
    var loading: bool
    var successMessage: string
    const auth: AuthProvider

    /** The empty form, in login mode. */
    constructor (auth: AuthProvider)
      ensures isLogin && name == [] && phoneNumber == [] && email == [] && password == []
      ensures error == [] && !loading && successMessage == [] && this.auth == auth
    {
      isLogin := true;
      name := [];
      phoneNumber := [];
      email := [];
      password := [];
      error := [];
      loading := false;
      successMessage := [];
      this.auth := auth;
    }

    /** `handleSubmit`: messages cleared; a rejected form shows its guard's message and calls
        nothing; otherwise a login sets the service's message on failure, and a sign-up either
        switches to login mode with the fields cleared and the success message, or shows the
        service's message. Loading is over on every path. */
    method HandleSubmit(st: Store)
      modifies this, auth, st
      ensures !loading && auth.loading == old(auth.loading)
      ensures var check := FormError(old(isLogin), old(email), old(password), old(name));
        check.Some? ==>
          && error == check.value && successMessage == []
          && isLogin == old(isLogin) && name == old(name) && email == old(email) && password == old(password)
          && phoneNumber == old(phoneNumber)
          && st.entries == old(st.entries) && auth.currentUser == old(auth.currentUser)
      ensures FormError(old(isLogin), old(email), old(password), old(name)).None? && old(isLogin) ==>
        var response := AuthService.Login(old(st.entries), old(email), old(password));
        && error == (if response.success then [] else response.message) && successMessage == []
        && isLogin && name == old(name) && email == old(email) && password == old(password)
        && phoneNumber == old(phoneNumber)
        && (response.success ==>
              && auth.currentUser == response.user
              && st.entries == old(st.entries)[SESSION_KEY := SessionRecord(response.user.value)])
        && (!response.success ==> auth.currentUser == old(auth.currentUser) && st.entries == old(st.entries))
      ensures FormError(old(isLogin), old(email), old(password), old(name)).None? && !old(isLogin) ==>
        auth.currentUser == old(auth.currentUser)
      ensures && FormError(old(isLogin), old(email), old(password), old(name)).None? && !old(isLogin)
              && old(email) !in AuthService.GetUsers(old(st.entries))
        ==>
        && isLogin && name == [] && phoneNumber == [] && email == [] && password == []
        && successMessage == AuthService.SIGNUP_OK && error == []
        && st.entries == AuthService.SaveUsers(old(st.entries), AuthService.GetUsers(old(st.entries))[
             old(email) := AuthService.NewAccount(old(email), old(password), old(name), old(phoneNumber))])
      ensures && FormError(old(isLogin), old(email), old(password), old(name)).None? && !old(isLogin)
              && old(email) in AuthService.GetUsers(old(st.entries))
        ==>
        && !isLogin && name == old(name) && email == old(email) && password == old(password)
        && phoneNumber == old(phoneNumber)
        && error == AuthService.USER_EXISTS && successMessage == [] && st.entries == old(st.entries)
    {
      error := [];
      successMessage := [];
      loading := true;

      var check := FormError(isLogin, email, password, name);
      assert check == FormError(old(isLogin), old(email), old(password), old(name));
      if check.Some? {
        error := check.value;
        loading := false;
        return;
      }

      if isLogin {
        var r := auth.Login(st, email, password);
        if !r.success {
          error := r.message;
        }
      } else {
        var r := auth.Signup(st, email, password, name, phoneNumber);
        if r.success {
          successMessage := r.message;
          isLogin := true;
          name := [];
          phoneNumber := [];
          email := [];
          password := [];
        } else {
          error := r.message;
        }
      }
      loading := false;
    }

    /** The mode switch: the other mode, with both messages cleared. */
    method ToggleMode()
      modifies this
      ensures isLogin == !old(isLogin) && error == [] && successMessage == []
      ensures name == old(name) && phoneNumber == old(phoneNumber) && email == old(email) && password == old(password)
      ensures loading == old(loading)
    {
      isLogin := !isLogin;
      error := [];
      successMessage := [];
    }
  }
}
