/**
 * The sign-in form: its three inputs, its validation, and what a submission does to the
 * session and to navigation.
 */
module Login {
  import opened Wrappers
  import opened Patterns
  import opened AuthContext

  const PasswordRequired := "Password is required"
  const PasswordTooShort := "Password must be at least 6 characters long"

  /** The password rule of the sign-in form: required, then at least six characters. */
  function PasswordCheck(password: string): (r: Option<string>)
    ensures r.None? <==> |password| >= 6
    ensures password == "" ==> r == Some(PasswordRequired)
    ensures 0 < |password| < 6 ==> r == Some(PasswordTooShort)
  {
    if password == "" then Some(PasswordRequired)
    else if |password| < 6 then Some(PasswordTooShort)
    else None
  }

  /**
   * `validate`: one message per failing field, keyed by the field's name. The form is valid
   * exactly when the e-mail matches the pattern and the password has six or more characters.
   */
  function Validate(email: string, password: string): (errors: map<string, string>)
    ensures errors.Keys <= {"email", "password"}
    ensures errors == map[] <==> EmailPattern(email) && |password| >= 6
    ensures "email" in errors <==> EmailCheck(email).Some?
    ensures "email" in errors ==> errors["email"] == EmailCheck(email).value
    ensures "password" in errors <==> |password| < 6
    ensures "password" in errors ==> errors["password"] == PasswordCheck(password).value
  {
    var errors := WithError(map[], "email", EmailCheck(email));
    var errors := WithError(errors, "password", PasswordCheck(password));
    assert EmailCheck(email).Some? ==> "email" in errors;
    errors
  }

  /** A form that passes validation is one the mock service accepts. */
  lemma ValidFormIsGranted(email: string, password: string, now: nat)
    requires Validate(email, password) == map[]
    ensures SimulateLogin(email, password, now).LoginGranted?
    ensures LoginOutcome(email, password, false, now).LoginSuccess?
  {
    assert EmailPattern(email);
  }

  /** The message shown for a refused login: the service's error, or the generic one when that is empty. */
  function GeneralError(error: string): (m: string)
    ensures m != ""
    ensures error != "" ==> m == error
    ensures error == "" ==> m == LoginFault
  {
    if error != "" then error else LoginFault
  }

  /** The inputs of the form, by their `name` attribute; `rememberMe` is the checkbox. */
  datatype Field = Email | Password | RememberMe

  function FieldName(f: Field): (n: string)
    ensures f == Email <==> n == "email"
    ensures f == Password <==> n == "password"
    ensures f == RememberMe <==> n == "rememberMe"
  {
    match f
    case Email => "email"
    case Password => "password"
    case RememberMe => "rememberMe"
  }

  /** `errors` after typing into `name`: a truthy message under that name is blanked, nothing else moves. */
  function ClearedError(errors: map<string, string>, name: string): (r: map<string, string>)
    ensures r.Keys == errors.Keys
    ensures name in r ==> r[name] == ""
    ensures forall k :: k in errors && k != name ==> r[k] == errors[k]
  {
    if name in errors && errors[name] != "" then errors[name := ""] else errors
  }

  /** The `Login` component's state. */
  class LoginForm {
    var email: string
    var password: string
    var rememberMe: bool
    var errors: map<string, string>
    var isSubmitting: bool

    constructor()
      ensures email == "" && password == "" && !rememberMe
      ensures errors == map[] && !isSubmitting
    {
      email := "";
      password := "";
      rememberMe := false;
      errors := map[];
      isSubmitting := false;
    }

    /**
     * `handleChange`: the changed input takes the event's value (the checkbox its `checked`
     * flag), the other inputs keep theirs, and a pending message under that name is blanked.
     */
    method HandleChange(field: Field, value: string, checked: bool)
      modifies this
      ensures email == (if field == Email then value else old(email))
      ensures password == (if field == Password then value else old(password))
      ensures rememberMe == (if field == RememberMe then checked else old(rememberMe))
      ensures errors == ClearedError(old(errors), FieldName(field))
      ensures isSubmitting == old(isSubmitting)
    {
      match field {
        case Email => email := value;
        case Password => password := value;
        case RememberMe => rememberMe := checked;
      }
      errors := ClearedError(errors, FieldName(field));
    }

    /**
     * `handleSubmit`: an invalid form only shows its messages. A valid one logs in; success
     * records the remember-me preference when ticked and goes to `/home`, failure shows one
     * general message. Submitting is over afterwards, and the inputs never change. The
     * submit button is disabled while a submission or the session is loading.
     */
    method HandleSubmit(auth: AuthProvider, fault: bool, now: nat) returns (navigateTo: Option<string>)
      requires auth.Valid() && !isSubmitting && !auth.isLoading
      modifies this, auth, auth.store
      ensures auth.Valid()
      ensures email == old(email) && password == old(password) && rememberMe == old(rememberMe)
      ensures Validate(email, password) != map[] ==>
        && errors == Validate(email, password) && navigateTo.None?
        && !isSubmitting
        && auth.user == old(auth.user) && auth.isAuthenticated == old(auth.isAuthenticated)
        && auth.isLoading == old(auth.isLoading) && auth.store.entries == old(auth.store.entries)
        && auth.requests == old(auth.requests)
      ensures Validate(email, password) == map[] ==>
        var outcome := LoginOutcome(email, password, fault, now);
        && !isSubmitting && !auth.isLoading
        && auth.requests == old(auth.requests) + [LoginRequest(email, password)]
        && (outcome.LoginSuccess? ==>
              && navigateTo == Some("/home") && errors == map[]
              && auth.user == Some(outcome.user) && auth.isAuthenticated
              && auth.store.entries ==
                   var written := old(auth.store.entries)["user" := UserRecord(outcome.user)]["authToken" := Str(SessionToken(now))];
                   if rememberMe then written["rememberMe" := Str("true")] else written)
        && (outcome.LoginFailure? ==>
              && navigateTo.None? && errors == map["general" := GeneralError(outcome.error)]
              && auth.user == old(auth.user) && auth.isAuthenticated == old(auth.isAuthenticated)
              && auth.store.entries == old(auth.store.entries))
    {
      var validationErrors := Validate(email, password);
      if validationErrors != map[] {
        errors := validationErrors;
        return None;
      }
      isSubmitting := true;
      errors := map[];
      var result := auth.Login(email, password, fault, now);
      if result.LoginSuccess? {
        if rememberMe {
          auth.store.SetItem("rememberMe", Str("true"));
        }
        navigateTo := Some("/home");
      } else {
        errors := map["general" := GeneralError(result.error)];
        navigateTo := None;
      }
      isSubmitting := false;
    }
  }
}
