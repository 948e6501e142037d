/** The account settings page: changing the password and updating the profile. */
module Settings {
  import opened JsValues

  const PasswordMismatchError := "New passwords do not match"
  const FillPasswordFieldsError := "Please fill in all password fields"
  const PasswordChangedSuccess := "Password changed successfully"
  const UnexpectedError := "An unexpected error occurred"
  const ProfileUpdatedSuccess := "Profile updated successfully"
  const ProfileErrorPrefix := "Failed to update profile: "

  /** How the identity provider answers a password change: accepted, refused with a message,
      or a thrown exception. */
  datatype PasswordOutcome = PasswordAccepted | PasswordRefused(message: string) | PasswordThrew

  /** How one profile update answers: done, or failed with the message of the error thrown. */
  datatype UpdateOutcome = Updated | UpdateFailed(message: string)

  /** The password checks: the mismatch check runs first, the emptiness check second, so empty
      fields that agree report the emptiness error. */
  function PasswordCheck(currentPassword: string, newPassword: string, confirmPassword: string): (r: Option<string>)
    ensures r == Some(PasswordMismatchError) <==> newPassword != confirmPassword
    ensures r == Some(FillPasswordFieldsError) <==>
      newPassword == confirmPassword && (currentPassword == "" || newPassword == "")
    ensures r == None <==> newPassword == confirmPassword && currentPassword != "" && newPassword != ""
  {
    if newPassword != confirmPassword then Some(PasswordMismatchError)
    else if currentPassword == "" || newPassword == "" then Some(FillPasswordFieldsError)
    else None
  }

  /** A profile update request: the display name and phone for the identity provider, and the
      language for the user's profile row. */
  datatype ProfileRequest = MetadataRequest(displayName: string, phone: string) | LanguageRequest(userId: string, language: string)

  /** The settings page's state, with the password changes and profile updates requested. The
      messages `error` and `success` are only ever set, never cleared, by the handlers. */
  class SettingsPage {
    var user: Option<string>
    var displayName: string
    var email: string
    var phone: string
    var language: string
    var currentPassword: string
    var newPassword: string
    var confirmPassword: string
    var error: string
    var success: string
    var passwordRequests: seq<string>
    var profileRequests: seq<ProfileRequest>

    constructor ()
      ensures user == None && displayName == "" && email == "" && phone == "" && language == "en"
      ensures currentPassword == "" && newPassword == "" && confirmPassword == ""
      ensures error == "" && success == "" && passwordRequests == [] && profileRequests == []
    {
      user := None;
      displayName, email, phone, language := "", "", "", "en";
      currentPassword, newPassword, confirmPassword := "", "", "";
      error, success := "", "";
      passwordRequests, profileRequests := [], [];
    }

    /** `handleChangePassword`. A failed check sets its error and sends nothing. Otherwise the new
        password is sent once: on success the success message is set and the three fields are
        cleared; a refusal shows the provider's message and keeps the fields. */
    method HandleChangePassword(outcome: PasswordOutcome)
      modifies this
      ensures var check := PasswordCheck(old(currentPassword), old(newPassword), old(confirmPassword));
        && (check.Some? ==>
              error == check.value && success == old(success) && passwordRequests == old(passwordRequests)
              && currentPassword == old(currentPassword) && newPassword == old(newPassword)
              && confirmPassword == old(confirmPassword))
        && (check.None? ==> passwordRequests == old(passwordRequests) + [old(newPassword)])
        && (check.None? && outcome.PasswordAccepted? ==>
              success == PasswordChangedSuccess && error == old(error)
              && currentPassword == "" && newPassword == "" && confirmPassword == "")
        && (check.None? && !outcome.PasswordAccepted? ==>
              error == (if outcome.PasswordRefused? then outcome.message else UnexpectedError)
              && success == old(success) && currentPassword == old(currentPassword)
              && newPassword == old(newPassword) && confirmPassword == old(confirmPassword))
      ensures user == old(user) && displayName == old(displayName) && email == old(email)
      ensures phone == old(phone) && language == old(language) && profileRequests == old(profileRequests)
    {
      if newPassword != confirmPassword {
        error := PasswordMismatchError;
        return;
      }
      if currentPassword == "" || newPassword == "" {
        error := FillPasswordFieldsError;
        return;
      }
      passwordRequests := passwordRequests + [newPassword];
      match outcome
      case PasswordAccepted =>
        success := PasswordChangedSuccess;
        currentPassword := "";
        newPassword := "";
        confirmPassword := "";
      case PasswordRefused(message) =>
        error := message;
      case PasswordThrew =>
        error := UnexpectedError;
    }

    /** `handleUpdateProfile`. Without a loaded user nothing happens. Otherwise the display name
        and phone are sent, then (if that succeeded) the language; success is reported only when
        both succeed, and the first failure sets "Failed to update profile: " and its message. */
    method HandleUpdateProfile(metadata: UpdateOutcome, profile: UpdateOutcome)
      modifies this
      ensures old(user).None? ==> unchanged(this)
      ensures old(user).Some? ==>
        && profileRequests == old(profileRequests) + [MetadataRequest(displayName, phone)]
           + (if metadata.Updated? then [LanguageRequest(old(user).value, language)] else [])
        && (metadata.Updated? && profile.Updated? ==> success == ProfileUpdatedSuccess && error == old(error))
        && (metadata.UpdateFailed? ==> error == ProfileErrorPrefix + metadata.message && success == old(success))
        && (metadata.Updated? && profile.UpdateFailed? ==> error == ProfileErrorPrefix + profile.message && success == old(success))
      ensures user == old(user) && displayName == old(displayName) && email == old(email)
      ensures phone == old(phone) && language == old(language)
      ensures currentPassword == old(currentPassword) && newPassword == old(newPassword)
      ensures confirmPassword == old(confirmPassword) && passwordRequests == old(passwordRequests)
    {
      if user.None? {
        return;
      }
      profileRequests := profileRequests + [MetadataRequest(displayName, phone)];
      if metadata.UpdateFailed? {
        error := ProfileErrorPrefix + metadata.message;
        return;
      }
      profileRequests := profileRequests + [LanguageRequest(user.value, language)];
      if profile.UpdateFailed? {
        error := ProfileErrorPrefix + profile.message;
        return;
      }
      success := ProfileUpdatedSuccess;
    }
  }
}
