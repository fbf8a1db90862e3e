/** The profile screen of the mobile client: loading and editing the profile,
    and the change-password form with its ordered checks. */
module ProfileScreen {
  import opened Common
  import Users
  import Strings

  const MsgAllPasswords: string := "All password fields are required."
  const MsgMismatch: string := "New passwords do not match."
  const MsgTooShort: string := "New password must be at least 6 characters long."
  const MsgAuth: string := "Authentication error. Please log in again."
  const MsgLoadFailed: string := "Failed to load profile data from server."
  const MsgLoadOffline: string := "Could not connect to the server to load profile data."
  const MsgSaved: string := "Profile updated successfully!"
  const MsgSaveFailed: string := "Failed to update profile."
  const MsgSaveOffline: string := "Could not connect to the server to update profile."
  const MsgPasswordChanged: string := "Password changed successfully!"
  const MsgChangeFailed: string := "Failed to change password."
  const MsgChangeOffline: string := "Could not connect to the server to change password."

  /** The checks of `handleChangePassword`, in order: every field filled, the
      confirmation equal to the new password, then the length. `None` when the
      form passes. */
  function PasswordFormError(current: string, newPassword: string, confirm: string): (e: Option<string>)
    ensures e.None? <==> current != "" && newPassword != "" && confirm != "" && newPassword == confirm
                         && |newPassword| >= Users.MinPasswordLength
    ensures (current == "" || newPassword == "" || confirm == "") ==> e == Some(MsgAllPasswords)
    ensures e == Some(MsgMismatch) <==> current != "" && newPassword != "" && confirm != "" && newPassword != confirm
    ensures e == Some(MsgTooShort) <==>
      current != "" && newPassword != "" && newPassword == confirm && |newPassword| < Users.MinPasswordLength
  {
    if current == "" || newPassword == "" || confirm == "" then Some(MsgAllPasswords)
    else if newPassword != confirm then Some(MsgMismatch)
    else if |newPassword| < 6 then Some(MsgTooShort)
    else None
  }

  /** What the form lets through also passes the two checks the server runs
      before it looks the user up. */
  lemma AcceptedPasswordPassesServerChecks(current: string, newPassword: string, confirm: string)
    requires PasswordFormError(current, newPassword, confirm).None?
    ensures current != "" && newPassword != ""
    ensures !(|newPassword| < Users.MinPasswordLength)
  {
  }

  /** `message || fallback`. */
  function OrElse(message: string, fallback: string): (m: string)
    ensures m == message || m == fallback
    ensures message != "" ==> m == message
    ensures m != "" <==> message != "" || fallback != ""
  {
    if message != "" then message else fallback
  }

  /** The state of the profile screen. */
  class ProfileState {
    var username: string
    var email: string
    var userId: string
    var loading: bool
    var errorMessage: string
    var isEditingProfile: bool
    var editUsername: string
    var editEmail: string
    var profileSuccessMessage: string
    var isChangingPassword: bool
    var currentPassword: string
    var newPassword: string
    var confirmNewPassword: string
    var passwordErrorMessage: string
    var passwordSuccessMessage: string
    var passwordLoading: bool

    constructor ()
      ensures username == email == userId == errorMessage == editUsername == editEmail == ""
      ensures profileSuccessMessage == currentPassword == newPassword == confirmNewPassword == ""
      ensures passwordErrorMessage == passwordSuccessMessage == ""
      ensures loading && !isEditingProfile && !isChangingPassword && !passwordLoading
    {
      username, email, userId, loading, errorMessage := "", "", "", true, "";
      isEditingProfile, editUsername, editEmail, profileSuccessMessage := false, "", "", "";
      isChangingPassword, currentPassword, newPassword, confirmNewPassword := false, "", "", "";
      passwordErrorMessage, passwordSuccessMessage, passwordLoading := "", "", false;
    }

    /** The profile half of the screen: the saved profile, the edit form, the
        profile messages and the page's loading flag. */
    predicate ProfileAs(u: string, e: string, id: string, editing: bool, eu: string, ee: string,
                        err: string, ok: string, busy: bool)
      reads this
    {
      username == u && email == e && userId == id && isEditingProfile == editing
      && editUsername == eu && editEmail == ee && errorMessage == err && profileSuccessMessage == ok
      && loading == busy
    }

    /** The password half of the screen: its fields, messages, whether it is
        open and its loading flag. */
    predicate PasswordFormAs(cur: string, nw: string, confirm: string, err: string, ok: string, open: bool,
                             busy: bool)
      reads this
    {
      currentPassword == cur && newPassword == nw && confirmNewPassword == confirm
      && passwordErrorMessage == err && passwordSuccessMessage == ok && isChangingPassword == open
      && passwordLoading == busy
    }

    /** `fetchProfileData` once GET /profile/:userId has been answered with
        `answer`, whose body, when it succeeds, is `profile`. Only a successful
        answer changes the profile and the edit fields. */
    method LoadProfile(token: Option<string>, storedUserId: Option<string>, answer: Delivery, profile: Users.Profile)
      modifies this
      ensures PasswordFormAs(old(currentPassword), old(newPassword), old(confirmNewPassword),
                             old(passwordErrorMessage), old(passwordSuccessMessage), old(isChangingPassword),
                             old(passwordLoading))
      ensures (token.None? || token.value == "" || storedUserId.None? || storedUserId.value == "") ==>
        ProfileAs(old(username), old(email), old(userId), old(isEditingProfile), old(editUsername), old(editEmail),
                  MsgAuth, old(profileSuccessMessage), false)
      ensures (token.Some? && token.value != "" && storedUserId.Some? && storedUserId.value != "") ==>
        && (answer.Delivered? && answer.ok ==>
              ProfileAs(profile.username, profile.email, Strings.IntToString(profile.id), old(isEditingProfile),
                        profile.username, profile.email, "", old(profileSuccessMessage), false))
        && (answer.Delivered? && !answer.ok ==>
              ProfileAs(old(username), old(email), old(userId), old(isEditingProfile), old(editUsername),
                        old(editEmail), OrElse(answer.message, MsgLoadFailed),
                        old(profileSuccessMessage), false))
        && (!answer.Delivered? ==>
              ProfileAs(old(username), old(email), old(userId), old(isEditingProfile), old(editUsername),
                        old(editEmail), MsgLoadOffline,
                        old(profileSuccessMessage), false))
    {
      loading := false;
      if token.None? || token.value == "" || storedUserId.None? || storedUserId.value == "" {
        errorMessage := MsgAuth;
      } else if !answer.Delivered? {
        errorMessage := MsgLoadOffline;
      } else if !answer.ok {
        errorMessage := OrElse(answer.message, MsgLoadFailed);
      } else {
        errorMessage := "";
        username, email, userId := profile.username, profile.email, Strings.IntToString(profile.id);
        editUsername, editEmail := profile.username, profile.email;
      }
    }

    /** `handleEditProfile`: only the editing flag changes. */
    method EditProfile()
      modifies this
      ensures ProfileAs(old(username), old(email), old(userId), true, old(editUsername), old(editEmail),
                        old(errorMessage), old(profileSuccessMessage), old(loading))
      ensures PasswordFormAs(old(currentPassword), old(newPassword), old(confirmNewPassword),
                             old(passwordErrorMessage), old(passwordSuccessMessage), old(isChangingPassword),
                             old(passwordLoading))
    {
      isEditingProfile := true;
    }

    /** `handleCancelEditProfile`: the edit fields go back to the saved values
        and both profile messages are cleared. */
    method CancelEditProfile()
      modifies this
      ensures ProfileAs(old(username), old(email), old(userId), false, old(username), old(email), "", "", old(loading))
      ensures PasswordFormAs(old(currentPassword), old(newPassword), old(confirmNewPassword),
                             old(passwordErrorMessage), old(passwordSuccessMessage), old(isChangingPassword),
                             old(passwordLoading))
    {
      isEditingProfile := false;
      editUsername := username;
      editEmail := email;
      profileSuccessMessage := "";
      errorMessage := "";
    }

    /** `handleSaveProfile` once its PUT /profile has been answered with
        `answer`; `sent` is the body it sent, if it sent one. Only an accepted
        save changes the saved profile and closes the edit form. */
    method SaveProfile(token: Option<string>, answer: Delivery) returns (sent: Option<(string, string)>)
      modifies this
      ensures PasswordFormAs(old(currentPassword), old(newPassword), old(confirmNewPassword),
                             old(passwordErrorMessage), old(passwordSuccessMessage), old(isChangingPassword),
                             old(passwordLoading))
      ensures sent.Some? <==> token.Some? && token.value != ""
      ensures sent.Some? ==> sent.value == (old(editUsername), old(editEmail))
      ensures sent.None? ==>
        ProfileAs(old(username), old(email), old(userId), old(isEditingProfile), old(editUsername), old(editEmail),
                  MsgAuth, "", false)
      ensures (sent.Some? && answer.Delivered? && answer.ok) ==>
        ProfileAs(old(editUsername), old(editEmail), old(userId), false, old(editUsername), old(editEmail),
                  "", OrElse(answer.message, MsgSaved), false)
      ensures (sent.Some? && answer.Delivered? && !answer.ok) ==>
        ProfileAs(old(username), old(email), old(userId), old(isEditingProfile), old(editUsername), old(editEmail),
                  OrElse(answer.message, MsgSaveFailed), "", false)
      ensures (sent.Some? && !answer.Delivered?) ==>
        ProfileAs(old(username), old(email), old(userId), old(isEditingProfile), old(editUsername), old(editEmail),
                  MsgSaveOffline, "", false)
    {
      errorMessage := "";
      profileSuccessMessage := "";
      if token.None? || token.value == "" {
        errorMessage := MsgAuth;
        loading := false;
        return None;
      }
      sent := Some((editUsername, editEmail));
      match answer {
        case Delivered(ok, message) =>
          if ok {
            username := editUsername;
            email := editEmail;
            isEditingProfile := false;
            profileSuccessMessage := OrElse(message, MsgSaved);
          } else {
            errorMessage := OrElse(message, MsgSaveFailed);
          }
        case Garbled =>
          errorMessage := MsgSaveOffline;
        case Unreachable(_) =>
          errorMessage := MsgSaveOffline;
      }
      loading := false;
    }

    /** `handleOpenChangePassword`: an open, empty password form; the profile
        half is untouched. */
    method OpenChangePassword()
      modifies this
      ensures PasswordFormAs("", "", "", "", "", true, old(passwordLoading))
      ensures ProfileAs(old(username), old(email), old(userId), old(isEditingProfile), old(editUsername),
                        old(editEmail), old(errorMessage), old(profileSuccessMessage), old(loading))
    {
      isChangingPassword := true;
      currentPassword, newPassword, confirmNewPassword := "", "", "";
      passwordErrorMessage, passwordSuccessMessage := "", "";
    }

    /** `handleCancelChangePassword`: the form closes and keeps what was typed. */
    method CancelChangePassword()
      modifies this
      ensures PasswordFormAs(old(currentPassword), old(newPassword), old(confirmNewPassword),
                             old(passwordErrorMessage), old(passwordSuccessMessage), false, old(passwordLoading))
      ensures ProfileAs(old(username), old(email), old(userId), old(isEditingProfile), old(editUsername),
                        old(editEmail), old(errorMessage), old(profileSuccessMessage), old(loading))
    {
      isChangingPassword := false;
    }

    /** `handleChangePassword` once its PUT /change-password, if sent, has been
        answered with `answer`; `sent` is the body it sent. */
    method ChangePassword(token: Option<string>, answer: Delivery) returns (sent: Option<(string, string)>)
      modifies this
      ensures !passwordLoading
      ensures currentPassword == old(currentPassword) && newPassword == old(newPassword)
      ensures confirmNewPassword == old(confirmNewPassword)
      ensures ProfileAs(old(username), old(email), old(userId), old(isEditingProfile), old(editUsername),
                        old(editEmail), old(errorMessage), old(profileSuccessMessage), old(loading))
      ensures PasswordFormError(old(currentPassword), old(newPassword), old(confirmNewPassword)).Some? ==>
        && sent.None?
        && Some(passwordErrorMessage) == PasswordFormError(old(currentPassword), old(newPassword), old(confirmNewPassword))
        && passwordSuccessMessage == "" && isChangingPassword == old(isChangingPassword)
      ensures sent.Some? <==>
        PasswordFormError(old(currentPassword), old(newPassword), old(confirmNewPassword)).None?
        && token.Some? && token.value != ""
      ensures sent.Some? ==> sent.value == (old(currentPassword), old(newPassword))
      ensures PasswordFormError(old(currentPassword), old(newPassword), old(confirmNewPassword)).None?
              && (token.None? || token.value == "") ==>
        passwordErrorMessage == MsgAuth && passwordSuccessMessage == "" && isChangingPassword == old(isChangingPassword)
      ensures (sent.Some? && answer.Delivered? && answer.ok) ==>
        passwordSuccessMessage == OrElse(answer.message, MsgPasswordChanged)
        && passwordErrorMessage == "" && !isChangingPassword
      ensures (sent.Some? && answer.Delivered? && !answer.ok) ==>
        passwordErrorMessage == OrElse(answer.message, MsgChangeFailed)
        && passwordSuccessMessage == "" && isChangingPassword == old(isChangingPassword)
      ensures (sent.Some? && !answer.Delivered?) ==>
        passwordErrorMessage == MsgChangeOffline
        && passwordSuccessMessage == "" && isChangingPassword == old(isChangingPassword)
    {
      passwordErrorMessage := "";
      passwordSuccessMessage := "";
      var error := PasswordFormError(currentPassword, newPassword, confirmNewPassword);
      if error.Some? {
        passwordErrorMessage := error.value;
        passwordLoading := false;
        return None;
      }
      if token.None? || token.value == "" {
        passwordErrorMessage := MsgAuth;
        passwordLoading := false;
        return None;
      }
      sent := Some((currentPassword, newPassword));
      match answer {
        case Delivered(ok, message) =>
          if ok {
            passwordSuccessMessage := OrElse(message, MsgPasswordChanged);
            isChangingPassword := false;
          } else {
            passwordErrorMessage := OrElse(message, MsgChangeFailed);
          }
        case Garbled =>
          passwordErrorMessage := MsgChangeOffline;
        case Unreachable(_) =>
          passwordErrorMessage := MsgChangeOffline;
      }
      passwordLoading := false;
    }
  }
}
