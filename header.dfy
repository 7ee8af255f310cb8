/** The change-password dialog of components/dashboard/header.tsx: the
    three password fields, the match guard, the request it sends, and what
    the dialog does once the request settles. */
module Header {
  import opened Wrappers
  import opened Records
  import opened Types

  /** The `passwords` state object. */
  datatype Passwords = Passwords(currentPassword: string, newPassword: string, confirmPassword: string)

  /** All three fields empty. */
  const EmptyPasswords: Passwords := Passwords("", "", "")

  /** The body `handleChangePassword` mutates with, if any: none when the new
      password and its confirmation differ; otherwise exactly the current
      and the new password, never the confirmation. */
  function ChangeRequest(p: Passwords): (r: Option<Fields>)
    ensures r.None? <==> p.newPassword != p.confirmPassword
    ensures r.Some? ==> Keys(r.value) == ["currentPassword", "newPassword"]
    ensures r.Some? ==> Lookup(r.value, "currentPassword") == Some(p.currentPassword)
    ensures r.Some? ==> Lookup(r.value, "newPassword") == Some(p.newPassword)
  {
    if p.newPassword != p.confirmPassword then None
    else Some([("currentPassword", p.currentPassword), ("newPassword", p.newPassword)])
  }

  /** The request never depends on what was typed as confirmation, beyond
      it matching. */
  lemma RequestIgnoresConfirmation(p: Passwords, q: Passwords)
    requires p.currentPassword == q.currentPassword && p.newPassword == q.newPassword
    requires p.newPassword == p.confirmPassword && q.newPassword == q.confirmPassword
    ensures ChangeRequest(p) == ChangeRequest(q)
  {
  }

  /** The submit button's label. */
  function ButtonLabel(isPending: bool): (r: string)
    ensures isPending <==> r == "Changing..."
    ensures !isPending ==> r == "Change Password"
  {
    if isPending then "Changing..." else "Change Password"
  }

  /** The dialog's state; `isPending` is the mutation's. */
  class Dialog {
    var showPasswordDialog: bool
    var passwords: Passwords
    var isPending: bool

    /** The initial `useState` values. */
    constructor ()
      ensures !showPasswordDialog && passwords == EmptyPasswords && !isPending
    {
      showPasswordDialog := false;
      passwords := EmptyPasswords;
      isPending := false;
    }

    /** The avatar button, and the dialog's `onOpenChange`. */
    method SetShowPasswordDialog(open: bool)
      modifies this
      ensures showPasswordDialog == open && passwords == old(passwords) && isPending == old(isPending)
    {
      showPasswordDialog := open;
    }

    /** The three inputs' `onChange`: `{ ...passwords, field: value }`. */
    method SetCurrentPassword(v: string)
      modifies this
      ensures passwords == old(passwords).(currentPassword := v)
      ensures showPasswordDialog == old(showPasswordDialog) && isPending == old(isPending)
    {
      passwords := passwords.(currentPassword := v);
    }

    method SetNewPassword(v: string)
      modifies this
      ensures passwords == old(passwords).(newPassword := v)
      ensures showPasswordDialog == old(showPasswordDialog) && isPending == old(isPending)
    {
      passwords := passwords.(newPassword := v);
    }

    method SetConfirmPassword(v: string)
      modifies this
      ensures passwords == old(passwords).(confirmPassword := v)
      ensures showPasswordDialog == old(showPasswordDialog) && isPending == old(isPending)
    {
      passwords := passwords.(confirmPassword := v);
    }

    /** `handleChangePassword`, reachable only while the button is enabled:
        a mismatch shows an error and sends nothing; otherwise the request
        starts and the mutation is pending. */
    method HandleChangePassword() returns (request: Option<Fields>, toast: Option<Toast>)
      requires !isPending
      modifies this
      ensures request == ChangeRequest(old(passwords))
      ensures request.None? ==> toast == Some(ErrorToast("Passwords do not match")) && !isPending
      ensures request.Some? ==> toast == None && isPending
      ensures showPasswordDialog == old(showPasswordDialog) && passwords == old(passwords)
    {
      request := ChangeRequest(passwords);
      if passwords.newPassword != passwords.confirmPassword {
        toast := Some(ErrorToast("Passwords do not match"));
        return;
      }
      toast := None;
      isPending := true;
    }

    /** The mutation settles: on success the dialog closes and every field
        is cleared; on error only the toast appears and nothing else changes. */
    method Settle(outcome: CallOutcome) returns (toast: Toast)
      requires isPending
      modifies this
      ensures !isPending
      ensures outcome.Resolved? ==>
        toast == SuccessToast("Password changed successfully") && !showPasswordDialog && passwords == EmptyPasswords
      ensures outcome.Rejected? ==>
        toast == ErrorToast("Failed to change password") &&
        showPasswordDialog == old(showPasswordDialog) && passwords == old(passwords)
    {
      isPending := false;
      if outcome.Resolved? {
        toast := SuccessToast("Password changed successfully");
        showPasswordDialog := false;
        passwords := Passwords("", "", "");
      } else {
        toast := ErrorToast("Failed to change password");
      }
    }
  }
}
