/**
 * The profile page (src/pages/ProfilePage.js): the change-password form,
 * its client-side checks, and what a submit leaves in the form. The
 * delayed logout after a success is not part of this model.
 */
module ProfilePage {
  import opened Text
  import opened ClientTypes
  import AuthRoutes

  const MismatchMsg := "New passwords do not match."
  const TooShortMsg := "New password must be at least 6 characters long."
  const ChangedMsg := "Password changed successfully! Please log in again."
  const ChangeFailedMsg := "Failed to change password."
  const MinLength := 6

  /** The checks `handleSubmit` makes before calling the API, with the page's messages. */
  function ProfileFormError(newPassword: string, confirmNewPassword: string): Option<string> {
    PasswordFormError(newPassword, confirmNewPassword, MinLength, MismatchMsg, TooShortMsg)
  }

  /**
   * The page does not compare the new password with the current one, so a
   * form it sends can still fail the server's checks: exactly when the
   * current password is empty or equal to the new one.
   */
  lemma ServerChecksBeyondForm(currentPassword: string, newPassword: string)
    requires ProfileFormError(newPassword, newPassword).None?
    ensures AuthRoutes.ChangePasswordInputError(Some(currentPassword), Some(newPassword)).None?
      <==> currentPassword != "" && currentPassword != newPassword
    ensures currentPassword == newPassword ==>
      AuthRoutes.ChangePasswordInputError(Some(currentPassword), Some(newPassword)) == Some(AuthRoutes.SamePasswordMsg)
  {
  }

  class ProfileForm {
    var currentPassword: string
    var newPassword: string
    var confirmNewPassword: string
    var error: string
    var success: string
    var loading: bool
    /** The API calls made so far, oldest first. */
    var requests: seq<Request>

    constructor ()
      ensures currentPassword == "" && newPassword == "" && confirmNewPassword == ""
      ensures error == "" && success == "" && !loading && requests == []
    {
      currentPassword := "";
      newPassword := "";
      confirmNewPassword := "";
      error := "";
      success := "";
      loading := false;
      requests := [];
    }

    /**
     * `handleSubmit`: a failed check sets its message and calls nothing;
     * otherwise the change is sent, and a success clears the three fields
     * and shows the server's message or the default one, while a failure
     * keeps the fields and shows the error. `loading` ends false.
     */
    method HandleSubmit(reply: Api<Option<string>>)
      modifies this
      ensures ProfileFormError(old(newPassword), old(confirmNewPassword)).Some? ==>
        && loading == old(loading)
        && error == ProfileFormError(old(newPassword), old(confirmNewPassword)).value && success == ""
        && requests == old(requests)
        && currentPassword == old(currentPassword) && newPassword == old(newPassword) && confirmNewPassword == old(confirmNewPassword)
      ensures ProfileFormError(old(newPassword), old(confirmNewPassword)).None? ==>
        !loading && requests == old(requests) + [ChangePassword(old(currentPassword), old(newPassword))]
      ensures ProfileFormError(old(newPassword), old(confirmNewPassword)).None? && reply.Ok? ==>
        && success == OrElse(reply.data, ChangedMsg) && error == ""
        && currentPassword == "" && newPassword == "" && confirmNewPassword == ""
      ensures ProfileFormError(old(newPassword), old(confirmNewPassword)).None? && reply.Fail? ==>
        && error == Describe(reply.err, ChangeFailedMsg) && success == ""
        && currentPassword == old(currentPassword) && newPassword == old(newPassword) && confirmNewPassword == old(confirmNewPassword)
    {
      error := "";
      success := "";
      var check := ProfileFormError(newPassword, confirmNewPassword);
      if check.Some? {
        error := check.value;
        return;
      }
      loading := true;
      requests := requests + [ChangePassword(currentPassword, newPassword)];
      match reply {
        case Ok(msg) =>
          success := OrElse(msg, ChangedMsg);
          currentPassword := "";
          newPassword := "";
          confirmNewPassword := "";
        case Fail(err) =>
          error := Describe(err, ChangeFailedMsg);
      }
      loading := false;
    }

    /** Typing into the three fields. */
    method Edit(current: string, typed: string, confirm: string)
      modifies this
      ensures currentPassword == current && newPassword == typed && confirmNewPassword == confirm
      ensures error == old(error) && success == old(success) && loading == old(loading) && requests == old(requests)
    {
      currentPassword := current;
      newPassword := typed;
      confirmNewPassword := confirm;
    }
  }

  /** A success leaves nothing typed behind, and shows a message even when the server sends none. */
  method ChangeThenClear(current: string, typed: string, serverMsg: Option<string>)
    returns (fields: seq<string>, shown: string, sent: seq<Request>)
    requires |typed| >= MinLength
    ensures fields == ["", "", ""]
    ensures shown != "" && (Given(serverMsg) ==> shown == serverMsg.value)
    ensures sent == [ChangePassword(current, typed)]
  {
    var form := new ProfileForm();
    form.Edit(current, typed, typed);
    form.HandleSubmit(Ok(serverMsg));
    fields := [form.currentPassword, form.newPassword, form.confirmNewPassword];
    shown := form.success;
    sent := form.requests;
  }
}
