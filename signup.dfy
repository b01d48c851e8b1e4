/**
 * The sign-up form's rules (src/pages/Signup.tsx): a name of at least two
 * characters, an address the email check accepts, a password of at least
 * six characters, and a confirmation equal to the password. The email
 * format check belongs to the form library and is a parameter here.
 */
module Signup {
  import opened Common

  const NameMinLength := 2
  const PasswordMinLength := 6

  datatype SignupForm = SignupForm(name: string, email: string, password: string, confirmPassword: string)

  datatype SignupField = NameField | EmailField | PasswordField | ConfirmPasswordField

  /** One failed rule: the field it is shown under and its message. */
  datatype SignupIssue = SignupIssue(field: SignupField, message: string)

  const NameTooShort := SignupIssue(NameField, "Name must be at least 2 characters")
  const BadEmail := SignupIssue(EmailField, "Please enter a valid email address")
  const PasswordTooShort := SignupIssue(PasswordField, "Password must be at least 6 characters")
  const PasswordsDiffer := SignupIssue(ConfirmPasswordField, "Passwords don't match")

  function Flag(failed: bool, i: SignupIssue): set<SignupIssue> {
    if failed then {i} else {}
  }

  /**
   * `signupSchema`. The field rules and the confirmation check are all
   * applied: a short password that also differs from its confirmation
   * reports both.
   */
  function SignupIssues(f: SignupForm, isEmail: string -> bool): (issues: set<SignupIssue>)
    ensures NameTooShort in issues <==> |f.name| < NameMinLength
    ensures BadEmail in issues <==> !isEmail(f.email)
    ensures PasswordTooShort in issues <==> |f.password| < PasswordMinLength
    ensures PasswordsDiffer in issues <==> f.password != f.confirmPassword
    ensures issues <= {NameTooShort, BadEmail, PasswordTooShort, PasswordsDiffer}
  {
    Flag(|f.name| < NameMinLength, NameTooShort)
    + Flag(!isEmail(f.email), BadEmail)
    + Flag(|f.password| < PasswordMinLength, PasswordTooShort)
    + Flag(f.password != f.confirmPassword, PasswordsDiffer)
  }

  /** The form is submitted, with its values unchanged, exactly when no rule fails. */
  function ValidateSignup(f: SignupForm, isEmail: string -> bool): (r: Result<SignupForm, set<SignupIssue>>)
    ensures r.Ok? <==> |f.name| >= NameMinLength && isEmail(f.email)
                       && |f.password| >= PasswordMinLength && f.confirmPassword == f.password
    ensures r.Ok? ==> r.value == f
    ensures r.Err? ==> r.error == SignupIssues(f, isEmail) && r.error != {}
  {
    var issues := SignupIssues(f, isEmail);
    if issues == {} then Ok(f) else Err(issues)
  }

  /**
   * The confirmation rule is the only one attached to `confirmPassword`,
   * and a mismatch is reported there however the other fields stand.
   */
  lemma MismatchReportedOnConfirmation(f: SignupForm, isEmail: string -> bool)
    ensures forall i :: i in SignupIssues(f, isEmail) && i.field == ConfirmPasswordField ==> i == PasswordsDiffer
    ensures f.password != f.confirmPassword ==>
      ValidateSignup(f, isEmail).Err? && PasswordsDiffer in ValidateSignup(f, isEmail).error
  {
  }
}
