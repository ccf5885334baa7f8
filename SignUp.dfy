/**
 * The registration form: five inputs, field-by-field validation with one message per
 * field, and a submission that creates the account and sends the visitor to sign in.
 */
module SignUp {
  import opened Wrappers
  import opened Text
  import opened Patterns
  import opened AuthContext

  const NameRequired := "Full name is required"
  const NameTooShort := "Name must be at least 2 characters long"
  const PasswordRequired := "Password is required"
  const PasswordTooShort := "Password must be at least 8 characters long"
  const PasswordWeak := "Password must contain at least one uppercase letter, one lowercase letter, and one number"
  const ConfirmRequired := "Please confirm your password"
  const ConfirmMismatch := "Passwords do not match"
  const TermsRequired := "You must agree to the terms and conditions"

  /** The name rule, applied to the trimmed name: required, then at least two characters. */
  function NameCheck(name: string): (r: Option<string>)
    ensures r.None? <==> |Trim(name)| >= 2
    ensures Trim(name) == "" ==> r == Some(NameRequired)
    ensures |Trim(name)| == 1 ==> r == Some(NameTooShort)
  {
    var trimmed := Trim(name);
    if trimmed == "" then Some(NameRequired)
    else if |trimmed| < 2 then Some(NameTooShort)
    else None
  }

  /** Surrounding blanks do not count toward the name's length. */
  lemma NameCheckIgnoresBlanks(before: string, name: string, after: string)
    requires AllWhitespace(before) && AllWhitespace(after)
    ensures NameCheck(before + name + after) == NameCheck(name)
  {
    TrimSurrounded(before, name, after);
  }

  /**
   * The password rule, in order: required, at least eight characters, then a lowercase
   * letter, an uppercase letter and a digit together on one line.
   */
  function PasswordCheck(password: string): (r: Option<string>)
    ensures r.None? <==> |password| >= 8 && HasLowerUpperDigit(password)
    ensures password == "" ==> r == Some(PasswordRequired)
    ensures 0 < |password| < 8 ==> r == Some(PasswordTooShort)
    ensures |password| >= 8 && !HasLowerUpperDigit(password) ==> r == Some(PasswordWeak)
  {
    if password == "" then Some(PasswordRequired)
    else if |password| < 8 then Some(PasswordTooShort)
    else if !HasLowerUpperDigit(password) then Some(PasswordWeak)
    else None
  }

  /** A long enough one-line password passes exactly when it mixes the three kinds of character. */
  lemma PasswordRuleOnOneLine(password: string)
    requires forall j :: 0 <= j < |password| ==> !IsLineTerminator(password[j])
    ensures PasswordCheck(password).None? <==>
      |password| >= 8 && ContainsClass(password, Lower) && ContainsClass(password, Upper)
      && ContainsClass(password, Digit)
  {
    SingleLinePassword(password);
  }

  /** The confirmation rule: required, then identical to the password. */
  function ConfirmCheck(password: string, confirmPassword: string): (r: Option<string>)
    ensures r.None? <==> confirmPassword != "" && confirmPassword == password
    ensures confirmPassword == "" ==> r == Some(ConfirmRequired)
    ensures confirmPassword != "" && confirmPassword != password ==> r == Some(ConfirmMismatch)
  {
    if confirmPassword == "" then Some(ConfirmRequired)
    else if password != confirmPassword then Some(ConfirmMismatch)
    else None
  }

  function TermsCheck(agreeToTerms: bool): (r: Option<string>)
    ensures r.None? <==> agreeToTerms
    ensures !agreeToTerms ==> r == Some(TermsRequired)
  {
    if agreeToTerms then None else Some(TermsRequired)
  }

  /** The form's five values. */
  datatype Fields = Fields(
    name: string,
    email: string,
    password: string,
    confirmPassword: string,
    agreeToTerms: bool)

  /** A form every rule accepts. */
  predicate Acceptable(f: Fields)
  {
    && |Trim(f.name)| >= 2
    && EmailPattern(f.email)
    && |f.password| >= 8 && HasLowerUpperDigit(f.password)
    && f.confirmPassword != "" && f.confirmPassword == f.password
    && f.agreeToTerms
  }

  /**
   * `validate`: each field's first failing rule gives its message under the field's name.
   * No message at all exactly when every rule accepts.
   */
  function Validate(f: Fields): (errors: map<string, string>)
    ensures errors.Keys <= {"name", "email", "password", "confirmPassword", "agreeToTerms"}
    ensures errors == map[] <==> Acceptable(f)
    ensures "name" in errors <==> NameCheck(f.name).Some?
    ensures "name" in errors ==> errors["name"] == NameCheck(f.name).value
    ensures "email" in errors <==> EmailCheck(f.email).Some?
    ensures "email" in errors ==> errors["email"] == EmailCheck(f.email).value
    ensures "password" in errors <==> PasswordCheck(f.password).Some?
    ensures "password" in errors ==> errors["password"] == PasswordCheck(f.password).value
    ensures "confirmPassword" in errors <==> ConfirmCheck(f.password, f.confirmPassword).Some?
    ensures "confirmPassword" in errors ==> errors["confirmPassword"] == ConfirmCheck(f.password, f.confirmPassword).value
    ensures "agreeToTerms" in errors <==> !f.agreeToTerms
    ensures "agreeToTerms" in errors ==> errors["agreeToTerms"] == TermsRequired
  {
    var nameCheck, emailCheck := NameCheck(f.name), EmailCheck(f.email);
    var passwordCheck := PasswordCheck(f.password);
    var confirmCheck := ConfirmCheck(f.password, f.confirmPassword);
    var termsCheck := TermsCheck(f.agreeToTerms);
    FiveChecks("name", nameCheck, "email", emailCheck, "password", passwordCheck,
               "confirmPassword", confirmCheck, "agreeToTerms", termsCheck);
    assert Acceptable(f) <==>
      && nameCheck.None? && emailCheck.None? && passwordCheck.None?
      && confirmCheck.None? && termsCheck.None?;
    var e := WithError(map[], "name", nameCheck);
    var e := WithError(e, "email", emailCheck);
    var e := WithError(e, "password", passwordCheck);
    var e := WithError(e, "confirmPassword", confirmCheck);
    WithError(e, "agreeToTerms", termsCheck)
  }

  /** A form that passes validation is one the mock service accepts. */
  lemma ValidFormIsGranted(f: Fields)
    requires Validate(f) == map[]
    ensures SimulateSignup(f.name, f.email, f.password).SignupGranted?
    ensures SignupOutcome(f.name, f.email, f.password, false).SignupSuccess?
  {
    assert |Trim(f.name)| >= 2;
    assert EmailPattern(f.email);
  }

  /** The message shown for a refused sign-up: the service's error, or the generic one when that is empty. */
  function GeneralError(error: string): (m: string)
    ensures m != ""
    ensures error != "" ==> m == error
    ensures error == "" ==> m == SignupFault
  {
    if error != "" then error else SignupFault
  }

  /** The inputs of the form, by their `name` attribute; `agreeToTerms` is the checkbox. */
  datatype Field = Name | Email | Password | ConfirmPassword | AgreeToTerms

  function FieldName(f: Field): (n: string)
    ensures f == Name <==> n == "name"
    ensures f == Email <==> n == "email"
    ensures f == Password <==> n == "password"
    ensures f == ConfirmPassword <==> n == "confirmPassword"
    ensures f == AgreeToTerms <==> n == "agreeToTerms"
  {
    match f
    case Name => "name"
    case Email => "email"
    case Password => "password"
    case ConfirmPassword => "confirmPassword"
    case AgreeToTerms => "agreeToTerms"
  }

  /** The values after a change event on `field`: that input takes the event's value or flag. */
  function Changed(f: Fields, field: Field, value: string, checked: bool): (r: Fields)
    ensures r.name == (if field == Name then value else f.name)
    ensures r.email == (if field == Email then value else f.email)
    ensures r.password == (if field == Password then value else f.password)
    ensures r.confirmPassword == (if field == ConfirmPassword then value else f.confirmPassword)
    ensures r.agreeToTerms == (if field == AgreeToTerms then checked else f.agreeToTerms)
  {
    match field
    case Name => f.(name := value)
    case Email => f.(email := value)
    case Password => f.(password := value)
    case ConfirmPassword => f.(confirmPassword := value)
    case AgreeToTerms => f.(agreeToTerms := checked)
  }

  /** Editing one field leaves the verdicts of the rules that do not read it alone. */
  lemma ChangeKeepsOtherVerdicts(f: Fields, field: Field, value: string, checked: bool)
    ensures field != Name ==> NameCheck(Changed(f, field, value, checked).name) == NameCheck(f.name)
    ensures field != Email ==> EmailCheck(Changed(f, field, value, checked).email) == EmailCheck(f.email)
    ensures field != AgreeToTerms ==> TermsCheck(Changed(f, field, value, checked).agreeToTerms) == TermsCheck(f.agreeToTerms)
    ensures field !in {Password, ConfirmPassword} ==>
      var g := Changed(f, field, value, checked);
      PasswordCheck(g.password) == PasswordCheck(f.password)
      && ConfirmCheck(g.password, g.confirmPassword) == ConfirmCheck(f.password, f.confirmPassword)
  {
  }

  /** The `SignUp` component's state. */
  class SignUpForm {
    var fields: Fields
    var errors: map<string, string>
    var isSubmitting: bool

    constructor()
      ensures fields == Fields("", "", "", "", false)
      ensures errors == map[] && !isSubmitting
    {
      fields := Fields("", "", "", "", false);
      errors := map[];
      isSubmitting := false;
    }

    /** `handleChange`: the input changes, and a truthy message under its name is blanked. */
    method HandleChange(field: Field, value: string, checked: bool)
      modifies this
      ensures fields == Changed(old(fields), field, value, checked)
      ensures errors.Keys == old(errors).Keys
      ensures FieldName(field) in errors ==> errors[FieldName(field)] == ""
      ensures forall k :: k in old(errors) && k != FieldName(field) ==> errors[k] == old(errors)[k]
      ensures isSubmitting == old(isSubmitting)
    {
      fields := Changed(fields, field, value, checked);
      var name := FieldName(field);
      if name in errors && errors[name] != "" {
        errors := errors[name := ""];
      }
    }

    /**
     * `handleSubmit`: an invalid form only shows its messages. A valid one calls `signup` with
     * the untrimmed name; success goes to `/login` and leaves the session alone, failure shows
     * one general message. Submitting is over afterwards. The submit button is disabled while
     * a submission or the session is loading.
     */
    method HandleSubmit(auth: AuthProvider, fault: bool) returns (navigateTo: Option<string>)
      requires auth.Valid() && !isSubmitting && !auth.isLoading
      modifies this, auth
      ensures auth.Valid()
      ensures fields == old(fields)
      ensures auth.user == old(auth.user) && auth.isAuthenticated == old(auth.isAuthenticated)
      ensures Validate(fields) != map[] ==>
        && errors == Validate(fields) && navigateTo.None? && !isSubmitting
        && auth.isLoading == old(auth.isLoading) && auth.requests == old(auth.requests)
      ensures Validate(fields) == map[] ==>
        var outcome := SignupOutcome(fields.name, fields.email, fields.password, fault);
        && !isSubmitting && !auth.isLoading
        && auth.requests == old(auth.requests) + [SignupRequest(fields.name, fields.email, fields.password)]
        && (outcome.SignupSuccess? ==> navigateTo == Some("/login") && errors == map[])
        && (outcome.SignupFailure? ==>
              navigateTo.None? && errors == map["general" := GeneralError(outcome.error)])
    {
      var validationErrors := Validate(fields);
      if validationErrors != map[] {
        errors := validationErrors;
        return None;
      }
      isSubmitting := true;
      errors := map[];
      var result := auth.Signup(fields.name, fields.email, fields.password, fault);
      if result.SignupSuccess? {
        navigateTo := Some("/login");
      } else {
        errors := map["general" := GeneralError(result.error)];
        navigateTo := None;
      }
      isSubmitting := false;
    }
  }
}
