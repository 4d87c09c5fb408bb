/** components/ProfilePage.tsx: the days left on a subscription, and the profile editor's state
    (edit mode, the details form, its message and the picture preview) as a `ProfileView`
    object over the auth provider. */
module ProfilePage {
  import opened Options
  import opened Text
  import opened Accounts
  import opened LocalStorage
  import AuthService
  import opened AuthContext
  import Ledger

  const NAME_EMPTY: string := "Name cannot be empty."
  const WRONG_TYPE: string := "Please select a JPG or PNG image."
  const TOO_LARGE: string := "Image size cannot exceed 2MB."
  const MAX_PICTURE_BYTES: nat := 2 * 1024 * 1024
  const ACCEPTED_TYPES: set<string> := {"image/jpeg", "image/png"}

  /** `getDaysRemaining`: 0 without an expiry, otherwise the milliseconds to the expiry divided
      by a day, rounded up (negative once the expiry has passed). */
  function DaysRemaining(expiry: Option<int>, now: int): (r: int)
    ensures expiry.None? ==> r == 0
    ensures expiry.Some? ==>
      (r - 1) * Ledger.DAY_MS < expiry.value - now <= r * Ledger.DAY_MS
  {
    if expiry.None? then 0 else -((now - expiry.value) / Ledger.DAY_MS)
  }

  /** A whole number of days ahead counts as exactly that many; a moment more counts as one
      more day. */
  lemma DaysRemainingExact(expiry: int, now: int, days: int)
    ensures DaysRemaining(Some(expiry), expiry - days * Ledger.DAY_MS) == days
    ensures DaysRemaining(Some(expiry), expiry - days * Ledger.DAY_MS - 1) == days + 1
  {
  }

  datatype MessageKind = Success | Failure

  /** `formMessage`: `{ type, text }`. */
  datatype FormMessage = FormMessage(kind: MessageKind, text: string)

  /** The chosen file: its MIME type and its size in bytes. */
  datatype ImageFile = ImageFile(mimeType: string, size: nat)

  /** The validation of `handleProfilePicSelect`: the type first, then the size. */
  function PictureError(file: ImageFile): (r: Option<string>)
    ensures r.None? <==> file.mimeType in ACCEPTED_TYPES && file.size <= MAX_PICTURE_BYTES
    ensures r == Some(WRONG_TYPE) <==> file.mimeType !in ACCEPTED_TYPES
    ensures r == Some(TOO_LARGE) <==> file.mimeType in ACCEPTED_TYPES && file.size > MAX_PICTURE_BYTES
  {
    if file.mimeType !in ACCEPTED_TYPES then Some(WRONG_TYPE)
    else if file.size > 2 * 1024 * 1024 then Some(TOO_LARGE)
    else None
  }

  /** A JPG or PNG of exactly 2 MiB passes; one byte more does not. */
  lemma TwoMebibyteBoundary(mimeType: string)
    requires mimeType in ACCEPTED_TYPES
    ensures PictureError(ImageFile(mimeType, 2097152)).None?
    ensures PictureError(ImageFile(mimeType, 2097153)) == Some(TOO_LARGE)
  {
  }

  /** The updates `handleEditDetails` sends: exactly the form's two fields. */
  function DetailUpdates(name: string, phoneNumber: string): UserUpdates
  {
    UserUpdates(None, Some(name), Some(phoneNumber), None)
  }

  /** Sending the two fields makes the profile carry exactly them. */
  lemma DetailsApplied(a: Account, name: string, phoneNumber: string)
    ensures PublicProfile(ApplyToAccount(a, DetailUpdates(name, phoneNumber))).name == name
    ensures PublicProfile(ApplyToAccount(a, DetailUpdates(name, phoneNumber))).phoneNumber == phoneNumber
  {
  }

  class ProfileView {
    var isEditing: bool
    var name: string
    var phoneNumber: string
    var formMessage: Option<FormMessage>
    var profilePicPreview: Option<string>
    const auth: AuthProvider

    /** The first render: not editing, the form filled from the current user (empty without
        one), no message and no preview. */
    constructor (auth: AuthProvider)
      ensures !isEditing && formMessage.None? && profilePicPreview.None? && this.auth == auth
      ensures name == (if auth.currentUser.Some? then auth.currentUser.value.name else [])
      ensures phoneNumber == (if auth.currentUser.Some? then auth.currentUser.value.phoneNumber else [])
    {
      isEditing := false;
      name := if auth.currentUser.Some? then auth.currentUser.value.name else [];
      phoneNumber := if auth.currentUser.Some? then auth.currentUser.value.phoneNumber else [];
      formMessage := None;
      profilePicPreview := None;
      this.auth := auth;
    }

    /** `handleEditDetails`: a blank name is refused and nothing is updated; otherwise the two
        fields are sent, a success leaves edit mode with the service's message and makes the
        current user carry exactly the form's name and phone, and a failure shows its message. */
    method HandleEditDetails(st: Store)
      modifies this, auth, st
      ensures name == old(name) && phoneNumber == old(phoneNumber) && profilePicPreview == old(profilePicPreview)
      ensures AllWhitespace(old(name)) ==>
        && formMessage == Some(FormMessage(Failure, NAME_EMPTY)) && isEditing == old(isEditing)
        && st.entries == old(st.entries) && auth.currentUser == old(auth.currentUser)
      ensures && !AllWhitespace(old(name)) && old(auth.currentUser).Some?
              && old(auth.currentUser).value.email in AuthService.GetUsers(old(st.entries)) ==>
        && formMessage == Some(FormMessage(Success, AuthService.PROFILE_UPDATED)) && !isEditing
        && auth.currentUser.Some? && auth.currentUser.value.name == old(name)
        && auth.currentUser.value.phoneNumber == old(phoneNumber)
      ensures !AllWhitespace(old(name)) && old(auth.currentUser).None? ==>
        && formMessage == Some(FormMessage(Failure, NO_USER)) && isEditing == old(isEditing)
        && st.entries == old(st.entries) && auth.currentUser == old(auth.currentUser)
      ensures && !AllWhitespace(old(name)) && old(auth.currentUser).Some?
              && old(auth.currentUser).value.email !in AuthService.GetUsers(old(st.entries)) ==>
        && formMessage == Some(FormMessage(Failure, AuthService.USER_NOT_FOUND)) && isEditing == old(isEditing)
        && st.entries == old(st.entries) && auth.currentUser == old(auth.currentUser)
    {
      formMessage := None;
      var blank := IsBlank(name);
      if blank {
        formMessage := Some(FormMessage(Failure, NAME_EMPTY));
        return;
      }
      ghost var user0 := auth.currentUser;
      ghost var users0 := AuthService.GetUsers(st.entries);
      var r := auth.UpdateUserProfile(st, DetailUpdates(name, phoneNumber));
      if r.success {
        DetailsApplied(users0[user0.value.email], name, phoneNumber);
        formMessage := Some(FormMessage(Success, r.message));
        isEditing := false;
      } else {
        formMessage := Some(FormMessage(Failure, r.message));
      }
    }

    /** `handleProfilePicSelect`, with the reader's data URL given: no file, no change; a file
        of the wrong type or over 2 MiB sets that message and keeps the preview; otherwise the
        data URL becomes the preview and the message is cleared. */
    method HandleProfilePicSelect(file: Option<ImageFile>, dataUrl: string)
      modifies this
      ensures isEditing == old(isEditing) && name == old(name) && phoneNumber == old(phoneNumber)
      ensures file.None? ==> formMessage == old(formMessage) && profilePicPreview == old(profilePicPreview)
      ensures file.Some? && PictureError(file.value).Some? ==>
        formMessage == Some(FormMessage(Failure, PictureError(file.value).value)) && profilePicPreview == old(profilePicPreview)
      ensures file.Some? && PictureError(file.value).None? ==>
        formMessage.None? && profilePicPreview == Some(dataUrl)
    {
      if file.None? {
        return;
      }
      var f := file.value;
      if f.mimeType !in {"image/jpeg", "image/png"} {
        formMessage := Some(FormMessage(Failure, WRONG_TYPE));
        return;
      }
      if f.size > 2 * 1024 * 1024 {
        formMessage := Some(FormMessage(Failure, TOO_LARGE));
        return;
      }
      profilePicPreview := Some(dataUrl);
      formMessage := None;
    }

    /** `handleSaveProfilePic`: nothing without a (non-empty) preview; otherwise the picture is
        sent, a success clears the preview and makes it the current user's picture, and a
        failure keeps the preview and shows its message. */
    method HandleSaveProfilePic(st: Store)
      modifies this, auth, st
      ensures isEditing == old(isEditing) && name == old(name) && phoneNumber == old(phoneNumber)
      ensures old(profilePicPreview).None? || old(profilePicPreview) == Some([]) ==>
        && formMessage == old(formMessage) && profilePicPreview == old(profilePicPreview)
        && st.entries == old(st.entries) && auth.currentUser == old(auth.currentUser)
      ensures old(profilePicPreview).Some? && old(profilePicPreview) != Some([]) ==>
        var success := old(auth.currentUser).Some? && old(auth.currentUser).value.email in AuthService.GetUsers(old(st.entries));
        && (success ==>
              && formMessage == Some(FormMessage(Success, AuthService.PROFILE_UPDATED)) && profilePicPreview.None?
              && auth.currentUser.Some? && auth.currentUser.value.profilePicture == old(profilePicPreview))
        && (!success ==>
              && formMessage == Some(FormMessage(Failure,
                   if old(auth.currentUser).None? then NO_USER else AuthService.USER_NOT_FOUND))
              && profilePicPreview == old(profilePicPreview)
              && st.entries == old(st.entries) && auth.currentUser == old(auth.currentUser))
    {
      if profilePicPreview.None? || profilePicPreview.value == [] {
        return;
      }
      formMessage := None;
      var r := auth.UpdateUserProfile(st, UserUpdates(None, None, None, profilePicPreview));
      if r.success {
        formMessage := Some(FormMessage(Success, r.message));
        profilePicPreview := None;
      } else {
        formMessage := Some(FormMessage(Failure, r.message));
      }
    }
  }
}
