/** The password-recovery screen of app/auth/forgot-password/page.tsx: a
    three-step form (email, one-time code, new password) whose handlers
    call the auth backend, and the six one-character boxes that edit the
    code. How each backend call settles is an input. */
module ForgotPassword {
  import opened Wrappers
  import opened Types

  /** The form shown. */
  datatype Step = EmailStep | OtpStep | ResetStep

  /** How far along the recovery a step is. */
  function Rank(s: Step): nat {
    match s
    case EmailStep => 0
    case OtpStep => 1
    case ResetStep => 2
  }

  /** The three submit handlers. */
  datatype Submit = EmailSubmit | OtpSubmit | ResetSubmit

  /** The handler of the form a step shows. */
  function FormOf(s: Step): Submit {
    match s
    case EmailStep => EmailSubmit
    case OtpStep => OtpSubmit
    case ResetStep => ResetSubmit
  }

  /** The step after a handler runs: a successful email submit moves to the
      code, a successful code submit to the new password, anything else
      stays put. */
  function AfterSubmit(s: Step, submit: Submit, succeeded: bool): (r: Step)
    ensures !succeeded ==> r == s
    ensures submit == ResetSubmit ==> r == s
    ensures succeeded && submit == EmailSubmit ==> r == OtpStep
    ensures succeeded && submit == OtpSubmit ==> r == ResetStep
  {
    if succeeded && submit == EmailSubmit then OtpStep
    else if succeeded && submit == OtpSubmit then ResetStep
    else s
  }

  /** Submitting the shown form once per entry of `outcomes` (true when that
      call succeeded), starting from `start`. */
  function Run(start: Step, outcomes: seq<bool>): Step {
    if outcomes == [] then start
    else
      var s := Run(start, outcomes[..|outcomes| - 1]);
      AfterSubmit(s, FormOf(s), outcomes[|outcomes| - 1])
  }

  /** How many calls succeeded. */
  function Successes(outcomes: seq<bool>): nat {
    if outcomes == [] then 0
    else Successes(outcomes[..|outcomes| - 1]) + (if outcomes[|outcomes| - 1] then 1 else 0)
  }

  /** From the email form, the step reached is fixed by the number of
      successful calls alone: none stays on the email form, one reaches the
      code form, two or more the new-password form. Failures never move it,
      and it never goes back. */
  lemma {:induction false} RunRank(outcomes: seq<bool>)
    ensures Rank(Run(EmailStep, outcomes)) == if Successes(outcomes) < 2 then Successes(outcomes) else 2
  {
    if outcomes != [] {
      RunRank(outcomes[..|outcomes| - 1]);
    }
  }

  /** A step only moves forward, one form at a time. */
  lemma ShownFormAdvancesByOne(s: Step, succeeded: bool)
    ensures var t := AfterSubmit(s, FormOf(s), succeeded);
      Rank(s) <= Rank(t) <= Rank(s) + 1 && (t != s ==> succeeded)
  {
  }

  /** The backend calls of the three handlers (lib/auth-api.ts). */
  datatype AuthCall =
    | ForgetPassword(email: string)
    | VerifyOtp(email: string, otp: string)
    | ResetPassword(email: string, otp: string, newPassword: string)

  /** The navigation the successful reset schedules: a location after a delay in milliseconds. */
  datatype Redirect = Redirect(location: string, delayMs: int)

  /** The Verify button: off while loading and unless the code has exactly six characters. */
  predicate VerifyDisabled(isLoading: bool, otp: string) {
    isLoading || |otp| != 6
  }

  /** What box `i` shows: `otp[i] || ""`. */
  function BoxValue(otp: string, i: nat): (r: string)
    ensures i < |otp| ==> r == [otp[i]]
    ensures i >= |otp| ==> r == ""
  {
    if i < |otp| then [otp[i]] else ""
  }

  /** `otp.split("")`: one single-character string per character. */
  function Split(s: string): (r: seq<string>)
    ensures |r| == |s|
    ensures forall k :: 0 <= k < |s| ==> r[k] == [s[k]]
  {
    seq(|s|, k requires 0 <= k < |s| => [s[k]])
  }

  /** `parts.join("")`; the holes an assignment past the end leaves read as "". */
  function Join(parts: seq<string>): string {
    if parts == [] then "" else Join(parts[..|parts| - 1]) + parts[|parts| - 1]
  }

  /** Joining a concatenation joins the two halves. */
  lemma {:induction false} JoinAppend(a: seq<string>, b: seq<string>)
    ensures Join(a + b) == Join(a) + Join(b)
    decreases |b|
  {
    if b == [] {
      assert a + b == a;
    } else {
      assert (a + b)[..|a + b| - 1] == a + b[..|b| - 1];
      JoinAppend(a, b[..|b| - 1]);
    }
  }

  /** Splitting and joining again gives the code back. */
  lemma {:induction false} JoinSplit(s: string)
    ensures Join(Split(s)) == s
  {
    if s != [] {
      assert Split(s)[..|s| - 1] == Split(s[..|s| - 1]);
      JoinSplit(s[..|s| - 1]);
      assert s == s[..|s| - 1] + [s[|s| - 1]];
    }
  }

  /** Holes join to nothing. */
  lemma {:induction false} JoinHoles(n: nat)
    ensures Join(seq(n, k => "")) == ""
  {
    if n > 0 {
      assert seq(n, k => "")[..n - 1] == seq(n - 1, k => "");
      JoinHoles(n - 1);
    }
  }

  /** The code after box `i` is edited to `v`: inside the code, character
      `i` is replaced by `v` (which may be empty or longer); past its end,
      `v` is added at the end. */
  function OtpAfterEdit(otp: string, i: nat, v: string): (r: string)
    ensures |r| == (if i < |otp| then |otp| - 1 + |v| else |otp| + |v|)
    ensures i < |otp| ==> r[..i] == otp[..i] && r[i..i + |v|] == v
    ensures i >= |otp| ==> r[..|otp|] == otp && r[|otp|..] == v
  {
    if i < |otp| then otp[..i] + v + otp[i + 1..] else otp + v
  }

  /** Typing one character into a box inside the code replaces exactly that character. */
  lemma EditReplacesOne(otp: string, i: nat, c: char)
    requires i < |otp|
    ensures |OtpAfterEdit(otp, i, [c])| == |otp|
    ensures forall j :: 0 <= j < |otp| ==> OtpAfterEdit(otp, i, [c])[j] == if j == i then c else otp[j]
  {
    var r := OtpAfterEdit(otp, i, [c]);
    forall j | 0 <= j < |otp|
      ensures r[j] == if j == i then c else otp[j]
    {
      if j < i {
        assert r[j] == otp[..i][j];
      } else if j > i {
        assert r[j] == otp[i + 1..][j - i - 1];
      }
    }
  }

  /** Clearing a box inside the code shortens it, so every later box shows
      the character of the box after it. */
  lemma ClearShiftsLeft(otp: string, i: nat)
    requires i < |otp|
    ensures |OtpAfterEdit(otp, i, "")| == |otp| - 1
    ensures forall j :: i <= j < |otp| - 1 ==> BoxValue(OtpAfterEdit(otp, i, ""), j) == BoxValue(otp, j + 1)
  {
    var r := OtpAfterEdit(otp, i, "");
    assert r == otp[..i] + otp[i + 1..];
    forall j | i <= j < |otp| - 1
      ensures r[j] == otp[j + 1]
    {
      assert r[j] == otp[i + 1..][j - i];
    }
  }

  /** Typing into a box past the end of the code lands in the first empty
      box, whichever box was typed into. */
  lemma EditPastEndAppends(otp: string, i: nat, c: char)
    requires i >= |otp|
    ensures OtpAfterEdit(otp, i, [c]) == otp + [c]
    ensures BoxValue(OtpAfterEdit(otp, i, [c]), |otp|) == [c]
  {
  }

  /** Typing the characters of `cs` into boxes 0, 1, 2, … in turn, from an empty code. */
  function TypedInOrder(cs: string): string {
    if cs == [] then "" else OtpAfterEdit(TypedInOrder(cs[..|cs| - 1]), |cs| - 1, [cs[|cs| - 1]])
  }

  /** Filling the boxes in order enters exactly the characters typed, so
      six of them turn Verify on once nothing is loading. */
  lemma {:induction false} TypedInOrderIsCode(cs: string)
    ensures TypedInOrder(cs) == cs
    ensures |cs| == 6 ==> !VerifyDisabled(false, TypedInOrder(cs))
  {
    if cs != [] {
      TypedInOrderIsCode(cs[..|cs| - 1]);
      assert cs[..|cs| - 1] + [cs[|cs| - 1]] == cs;
    }
  }

  /** Assigning element `i` of the split code and joining gives the edited code. */
  lemma JoinAssigned(otp: string, i: nat, v: string)
    requires i < |otp|
    ensures Join(Split(otp)[i := v]) == OtpAfterEdit(otp, i, v)
  {
    assert Split(otp)[i := v] == Split(otp[..i]) + [v] + Split(otp[i + 1..]);
    JoinAppend(Split(otp[..i]) + [v], Split(otp[i + 1..]));
    JoinAppend(Split(otp[..i]), [v]);
    assert Join([v]) == Join([]) + v;
    JoinSplit(otp[..i]);
    JoinSplit(otp[i + 1..]);
  }

  /** Assigning past the end of the split code after some holes and joining
      gives the code with `v` added at the end. */
  lemma JoinPadded(otp: string, n: nat, v: string)
    ensures Join(Split(otp) + seq(n, k => "") + [v]) == otp + v
  {
    JoinAppend(Split(otp) + seq(n, k => ""), [v]);
    JoinAppend(Split(otp), seq(n, k => ""));
    JoinHoles(n);
    JoinSplit(otp);
    assert Join([v]) == Join([]) + v;
  }

  /** The box `onChange`, as the page writes it: split the code into an
      array, assign element `i` (growing the array with holes when `i` is
      past its end) and join it back. */
  method EditOtp(otp: string, i: nat, v: string) returns (r: string)
    ensures r == OtpAfterEdit(otp, i, v)
  {
    var parts: seq<string> := [];
    var k := 0;
    while k < |otp|
      invariant 0 <= k <= |otp|
      invariant |parts| == k
      invariant forall m :: 0 <= m < k ==> parts[m] == [otp[m]]
    {
      parts := parts + [[otp[k]]];
      k := k + 1;
    }
    assert parts == Split(otp);
    if i < |parts| {
      parts := parts[i := v];
      JoinAssigned(otp, i, v);
    } else {
      var holes: seq<string> := [];
      while |parts| + |holes| < i
        invariant |parts| + |holes| <= i
        invariant holes == seq(|holes|, m => "")
        decreases i - |holes|
      {
        holes := holes + [""];
      }
      JoinPadded(otp, |holes|, v);
      parts := parts + holes + [v];
    }
    r := JoinLoop(parts);
  }

  /** The `join("")` loop: appends the parts one after another. */
  method JoinLoop(parts: seq<string>) returns (r: string)
    ensures r == Join(parts)
  {
    r := "";
    var j := 0;
    while j < |parts|
      invariant 0 <= j <= |parts|
      invariant r == Join(parts[..j])
    {
      assert parts[..j + 1][..j] == parts[..j];
      r := r + parts[j];
      j := j + 1;
    }
    assert parts[..j] == parts;
  }

  /** The page's state. */
  class Page {
    var step: Step
    var email: string
    var otp: string
    var newPassword: string
    var confirmPassword: string
    var isLoading: bool

    /** The initial `useState` values. */
    constructor ()
      ensures step == EmailStep && email == "" && otp == "" && newPassword == "" && confirmPassword == ""
      ensures !isLoading
    {
      step := EmailStep;
      email := "";
      otp := "";
      newPassword := "";
      confirmPassword := "";
      isLoading := false;
    }

    /** The inputs' `onChange` handlers. */
    method SetEmail(v: string)
      modifies this
      ensures email == v && step == old(step) && otp == old(otp) && isLoading == old(isLoading)
      ensures newPassword == old(newPassword) && confirmPassword == old(confirmPassword)
    {
      email := v;
    }

    method SetNewPassword(v: string)
      modifies this
      ensures newPassword == v && step == old(step) && email == old(email) && otp == old(otp)
      ensures confirmPassword == old(confirmPassword) && isLoading == old(isLoading)
    {
      newPassword := v;
    }

    method SetConfirmPassword(v: string)
      modifies this
      ensures confirmPassword == v && step == old(step) && email == old(email) && otp == old(otp)
      ensures newPassword == old(newPassword) && isLoading == old(isLoading)
    {
      confirmPassword := v;
    }

    /** Box `i`'s `onChange` with the box's new text. */
    method EditBox(i: nat, v: string)
      requires i < 6
      modifies this
      ensures otp == OtpAfterEdit(old(otp), i, v)
      ensures step == old(step) && email == old(email) && isLoading == old(isLoading)
      ensures newPassword == old(newPassword) && confirmPassword == old(confirmPassword)
    {
      otp := EditOtp(otp, i, v);
    }

    /** `handleEmailSubmit`: requests a code for the email entered. */
    method HandleEmailSubmit(outcome: CallOutcome) returns (call: AuthCall, toast: Toast)
      modifies this
      ensures call == ForgetPassword(old(email))
      ensures step == AfterSubmit(old(step), EmailSubmit, outcome.Resolved?)
      ensures toast == if outcome.Resolved? then SuccessToast("OTP sent to your email") else ErrorToast("Failed to send OTP")
      ensures !isLoading
      ensures email == old(email) && otp == old(otp)
      ensures newPassword == old(newPassword) && confirmPassword == old(confirmPassword)
    {
      isLoading := true;
      call := ForgetPassword(email);
      if outcome.Resolved? {
        toast := SuccessToast("OTP sent to your email");
        step := OtpStep;
      } else {
        toast := ErrorToast("Failed to send OTP");
      }
      isLoading := false;
    }

    /** `handleOTPSubmit`: checks the code against the email entered. */
    method HandleOtpSubmit(outcome: CallOutcome) returns (call: AuthCall, toast: Toast)
      modifies this
      ensures call == VerifyOtp(old(email), old(otp))
      ensures step == AfterSubmit(old(step), OtpSubmit, outcome.Resolved?)
      ensures toast == if outcome.Resolved? then SuccessToast("OTP verified") else ErrorToast("Invalid OTP")
      ensures !isLoading
      ensures email == old(email) && otp == old(otp)
      ensures newPassword == old(newPassword) && confirmPassword == old(confirmPassword)
    {
      isLoading := true;
      call := VerifyOtp(email, otp);
      if outcome.Resolved? {
        toast := SuccessToast("OTP verified");
        step := ResetStep;
      } else {
        toast := ErrorToast("Invalid OTP");
      }
      isLoading := false;
    }

    /** `handleResetSubmit`: mismatched passwords stop before any request;
        otherwise the email and code of the earlier steps go with the new
        password, and success schedules the move to the login page. */
    method HandleResetSubmit(outcome: CallOutcome)
      returns (call: Option<AuthCall>, toast: Toast, redirect: Option<Redirect>)
      modifies this
      ensures old(newPassword) != old(confirmPassword) ==>
        call == None && toast == ErrorToast("Passwords do not match") && redirect == None &&
        isLoading == old(isLoading)
      ensures old(newPassword) == old(confirmPassword) ==>
        call == Some(ResetPassword(old(email), old(otp), old(newPassword))) && !isLoading &&
        (outcome.Resolved? ==> toast == SuccessToast("Password reset successful") &&
                               redirect == Some(Redirect("/auth/login", 2000))) &&
        (outcome.Rejected? ==> toast == ErrorToast("Failed to reset password") && redirect == None)
      ensures step == old(step) && email == old(email) && otp == old(otp)
      ensures newPassword == old(newPassword) && confirmPassword == old(confirmPassword)
    {
      redirect := None;
      if newPassword != confirmPassword {
        call := None;
        toast := ErrorToast("Passwords do not match");
        return;
      }
      isLoading := true;
      call := Some(ResetPassword(email, otp, newPassword));
      if outcome.Resolved? {
        toast := SuccessToast("Password reset successful");
        redirect := Some(Redirect("/auth/login", 2000));
      } else {
        toast := ErrorToast("Failed to reset password");
      }
      isLoading := false;
    }
  }
}
