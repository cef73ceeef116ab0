/** The login screen of src/components/auth/Login.tsx: the client-side
    checks, the submit handler, the form edits and the submit-button gate. */
module Login {
  import opened Types
  import JsText
  import Storage
  import CsvUtils
  import AuthContext

  const UsernameRequired := "Username is required"
  const PasswordRequired := "Password is required"
  const UsernameTooShort := "Username must be at least 3 characters"
  const AuthenticationFailed := "Authentication failed"
  const NetworkError := "Network error. Please try again."

  /** The first client-side check the form fails, in the order they run;
      `None` when all three pass. The length check is on the untrimmed name. */
  function PreCheck(username: string, password: string): (e: Option<string>)
    ensures JsText.Blank(username) ==> e == Some(UsernameRequired)
    ensures !JsText.Blank(username) && password == "" ==> e == Some(PasswordRequired)
    ensures !JsText.Blank(username) && password != "" && JsText.Length(username) < 3 ==>
              e == Some(UsernameTooShort)
    ensures e == None <==> !JsText.Blank(username) && password != "" && JsText.Length(username) >= 3
  {
    JsText.TrimEmptyIffBlank(username);
    if JsText.Trim(username) == [] then Some(UsernameRequired)
    else if password == "" then Some(PasswordRequired)
    else if JsText.Length(username) < 3 then Some(UsernameTooShort)
    else None
  }

  /** Leading and trailing spaces count towards the three characters: "  a"
      passes the checks though its trimmed name has one. */
  lemma PaddedNamePasses()
    ensures PreCheck("  a", "x") == None
    ensures |JsText.Trim("  a")| == 1
  {
    assert !JsText.Blank("  a") by {
      assert !JsText.IsSpace("  a"[2]);
    }
    assert JsText.TrimStart("  a") == "a" by {
      assert "  a"[1..] == " a" && " a"[1..] == "a";
    }
  }

  /** What `login` came back with: its result, or an exception. */
  datatype Attempt = Returned(outcome: Outcome) | Threw

  /** The error the form shows after the `login` call: none on success,
      `result.error || 'Authentication failed'` on failure, and the network
      message when the call throws. */
  function AttemptError(a: Attempt): (e: string)
    ensures a == Returned(Success) ==> e == ""
    ensures a.Returned? && a.outcome.Failure? ==>
              e != "" && (a.outcome.error != "" ==> e == a.outcome.error)
    ensures a.Threw? ==> e == NetworkError
  {
    match a
    case Returned(Success) => ""
    case Returned(Failure(err)) => if err != "" then err else AuthenticationFailed
    case Threw => NetworkError
  }

  datatype Credentials = Credentials(username: string, password: string)

  datatype Field = Username | Password

  /** The three simulated security flags. */
  datatype SecurityChecks = SecurityChecks(dataIntegrity: bool, sessionValidation: bool, secureConnection: bool)

  /** `Object.values(securityChecks).every(check => check)`. */
  predicate AllSecurityChecksComplete(c: SecurityChecks) {
    c.dataIntegrity && c.sessionValidation && c.secureConnection
  }

  /** `disabled={isLoading || !allSecurityChecksComplete}`, negated. */
  function SubmitEnabled(isLoading: bool, c: SecurityChecks): (enabled: bool)
    ensures enabled <==> !isLoading && c.dataIntegrity && c.sessionValidation && c.secureConnection
  {
    !(isLoading || !AllSecurityChecksComplete(c))
  }

  class LoginForm {
    var formData: Credentials
    var error: string
    var isLoading: bool
    var securityChecks: SecurityChecks
    const auth: AuthContext.AuthProvider

    constructor (auth: AuthContext.AuthProvider)
      ensures formData == Credentials("", "") && error == "" && !isLoading
      ensures securityChecks == SecurityChecks(false, false, false)
      ensures this.auth == auth
    {
      formData := Credentials("", "");
      error := "";
      isLoading := false;
      securityChecks := SecurityChecks(false, false, false);
      this.auth := auth;
    }

    /** The mount effect, its delays left out: the flags turn on one after
        another, after which the button can be used. */
    method RunSecurityChecks()
      modifies this
      ensures securityChecks == SecurityChecks(true, true, true)
      ensures SubmitEnabled(isLoading, securityChecks) <==> !isLoading
      ensures formData == old(formData) && error == old(error) && isLoading == old(isLoading)
    {
      securityChecks := securityChecks.(dataIntegrity := true);
      securityChecks := securityChecks.(sessionValidation := true);
      securityChecks := securityChecks.(secureConnection := true);
    }

    /** `handleSubmit`: the checks run first and a failing one stops the
        submit before `login` is called; the result is `None` then, or the
        outcome of the call. Loading is off on every exit. */
    method HandleSubmit() returns (called: Option<Outcome>)
      modifies this, auth, auth.storage
      ensures !isLoading
      ensures formData == old(formData) && securityChecks == old(securityChecks)
      ensures var pre := PreCheck(old(formData).username, old(formData).password);
              pre.Some? ==>
                called == None && error == pre.value
                && auth.state == old(auth.state) && auth.storage.items == old(auth.storage.items)
      ensures var pre := PreCheck(old(formData).username, old(formData).password);
              var users := CsvUtils.LoadedUsers(old(auth.storage.items), auth.loadedAt);
              var loaded := CsvUtils.AfterLoadUsers(old(auth.storage.items), auth.loadedAt);
              var k := AuthContext.FindIndex(users, old(formData).username, old(formData).password);
              pre.None? ==>
                called.Some? && error == AttemptError(Returned(called.value))
                && (k >= 0 ==> called.value == Success && error == ""
                               && auth.state == AuthState(Some(users[k]), true, false)
                               && auth.storage.items == loaded[Storage.SessionKey := Storage.Json(Storage.UserRecord(users[k]))])
                && (k < 0 ==> called.value == Failure(AuthContext.InvalidCredentials)
                              && error == AuthContext.InvalidCredentials
                              && auth.state == old(auth.state) && auth.storage.items == loaded)
    {
      error := "";
      isLoading := true;
      var pre := PreCheck(formData.username, formData.password);
      if pre.Some? {
        error := pre.value;
        isLoading := false;
        return None;
      }
      var result := auth.Login(formData.username, formData.password);
      error := AttemptError(Returned(result));
      isLoading := false;
      return Some(result);
    }

    /** `handleInputChange`: the field takes the value and any error is cleared. */
    method HandleInputChange(field: Field, value: string)
      modifies this
      ensures formData == match field
                          case Username => old(formData).(username := value)
                          case Password => old(formData).(password := value)
      ensures error == ""
      ensures isLoading == old(isLoading) && securityChecks == old(securityChecks)
    {
      match field {
        case Username => formData := formData.(username := value);
        case Password => formData := formData.(password := value);
      }
      if error != "" {
        error := "";
      }
    }

    /** `handleDemoLogin`: fills both fields and clears the error. */
    method HandleDemoLogin(username: string, password: string)
      modifies this
      ensures formData == Credentials(username, password) && error == ""
      ensures isLoading == old(isLoading) && securityChecks == old(securityChecks)
    {
      formData := Credentials(username, password);
      error := "";
    }
  }
}
