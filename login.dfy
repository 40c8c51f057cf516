/**
 * The sign-in page (src/components/Login/Login.tsx) and its request (src/api/login-api.ts): the
 * password rule, the error flags it sets, the guards `handleSubmit` runs before calling the login
 * request, and what a successful or failed request does.
 */
module Login {
  import opened Wrappers
  import Auth

  datatype Credentials = Credentials(username: string, password: string)

  /** The two named inputs of the form. */
  datatype Field = UsernameField | PasswordField

  const PasswordMessage: string := "Password must be at least 6 characters long."
  const DashboardPath: string := "/dashboard"

  /** JavaScript's `length` of a string: its UTF-16 code units, two for each character outside
      the Basic Multilingual Plane. */
  function Utf16Length(s: string): (n: nat)
    ensures |s| <= n <= 2 * |s|
    ensures n == 0 <==> s == []
  {
    if s == [] then 0
    else Utf16Length(s[..|s| - 1]) + (if s[|s| - 1] as int > 0xFFFF then 2 else 1)
  }

  /** Within the Basic Multilingual Plane the UTF-16 length is the number of characters. */
  lemma {:induction false} Utf16LengthOfBmp(s: string)
    requires forall i :: 0 <= i < |s| ==> s[i] as int <= 0xFFFF
    ensures Utf16Length(s) == |s|
  {
    if s != [] {
      Utf16LengthOfBmp(s[..|s| - 1]);
    }
  }

  /** The password rule: not empty and at least 6 UTF-16 code units long. */
  function PasswordValid(password: string): (valid: bool)
    ensures valid <==> Utf16Length(password) >= 6
  {
    !(password == "" || Utf16Length(password) < 6)
  }

  /** Three emoji make six code units, so they pass the rule although they are three characters;
      five characters of the Basic Multilingual Plane do not. */
  lemma PasswordRuleCountsCodeUnits()
    ensures PasswordValid("\U{1F600}\U{1F600}\U{1F600}")
    ensures !PasswordValid("abcde")
  {
    var emoji := "\U{1F600}\U{1F600}\U{1F600}";
    assert emoji[..2][..1] == emoji[..1] && emoji[..1][..0] == [];
    assert emoji[..|emoji| - 1] == emoji[..2];
    assert emoji[..2][..|emoji[..2]| - 1] == emoji[..1];
    Utf16LengthOfBmp("abcde");
  }

  /** How the login request ended: it threw (network failure or a non-2xx status), or it answered
      with or without an `authorization` header. */
  datatype LoginResponse = Threw | Responded(authorization: Option<string>)

  datatype LoginResult = LoginResult(success: bool, token: Option<string>)

  /** `loginApi`: success exactly when a non-empty token came back, which is then stored. */
  function LoginApi(response: LoginResponse): (r: LoginResult)
    ensures r.success <==> response.Responded? && response.authorization.Some? && response.authorization.value != ""
    ensures r.token.Some? <==> r.success
    ensures r.success ==> r.token == response.authorization
  {
    match response
    case Threw => LoginResult(false, None)
    case Responded(header) =>
      if header.Some? && header.value != "" then LoginResult(true, header) else LoginResult(false, None)
  }

  /** Whether `handleSubmit` reaches the request, as written: the fresh password check, then the
      error flags of the render the handler belongs to, then both form values non-empty. */
  function SubmitProceedsAsWritten(renderedUsernameError: bool, renderedPasswordError: bool,
                                   username: string, password: string): bool
  {
    PasswordValid(password) && !(renderedUsernameError || renderedPasswordError) && username != "" && password != ""
  }

  /** Whether the submit should reach the request: the values themselves are acceptable. */
  function IntendedSubmitProceeds(username: string, password: string): (proceeds: bool)
    ensures proceeds <==> username != "" && Utf16Length(password) >= 6
  {
    PasswordValid(password) && username != "" && password != ""
  }

  /** The flags of a render are those the last validation left: the username flag is always
      cleared and the password flag is set exactly when that password broke the rule. */
  predicate FlagsFrom(usernameError: bool, passwordError: bool, lastPassword: string)
  {
    !usernameError && passwordError == !PasswordValid(lastPassword)
  }

  /** The guard as written agrees with the intended one whenever the rendered flags come from a
      valid password (the first submit, or any submit after a valid one). */
  lemma {:induction false} AsWrittenAgreesAfterValidSubmit(usernameError: bool, passwordError: bool, lastPassword: string,
                                                          username: string, password: string)
    requires FlagsFrom(usernameError, passwordError, lastPassword) && PasswordValid(lastPassword)
    ensures SubmitProceedsAsWritten(usernameError, passwordError, username, password) ==
            IntendedSubmitProceeds(username, password)
  {
  }

  /** The first valid submit after a rejected password makes no request: the handler still sees
      the flag of the rejected attempt, although the password it has just checked is valid. */
  lemma StaleFlagBlocksValidSubmit()
    ensures FlagsFrom(false, true, "abc")
    ensures IntendedSubmitProceeds("alice", "secret1")
    ensures !SubmitProceedsAsWritten(false, true, "alice", "secret1")
  {
  }

  /** The page's state. */
  class LoginForm {
    var usernameError: bool
    var usernameErrorMessage: string
    var passwordError: bool
    var passwordErrorMessage: string
    var open: bool
    var credentials: Credentials

    constructor ()
      ensures !usernameError && usernameErrorMessage == "" && !passwordError && passwordErrorMessage == ""
      ensures !open && credentials == Credentials("", "")
    {
      usernameError := false;
      usernameErrorMessage := "";
      passwordError := false;
      passwordErrorMessage := "";
      open := false;
      credentials := Credentials("", "");
    }

    /** `handleChange`: the named field takes the input's value; the other is kept. */
    method HandleChange(field: Field, value: string)
      modifies this
      ensures credentials == (match field
                              case UsernameField => old(credentials).(username := value)
                              case PasswordField => old(credentials).(password := value))
      ensures usernameError == old(usernameError) && passwordError == old(passwordError) && open == old(open)
      ensures usernameErrorMessage == old(usernameErrorMessage) && passwordErrorMessage == old(passwordErrorMessage)
    {
      match field
      case UsernameField => credentials := credentials.(username := value);
      case PasswordField => credentials := credentials.(password := value);
    }

    method HandleClickOpen()
      modifies this
      ensures open
      ensures credentials == old(credentials) && usernameError == old(usernameError) && passwordError == old(passwordError)
      ensures usernameErrorMessage == old(usernameErrorMessage) && passwordErrorMessage == old(passwordErrorMessage)
    {
      open := true;
    }

    method HandleClose()
      modifies this
      ensures !open
      ensures credentials == old(credentials) && usernameError == old(usernameError) && passwordError == old(passwordError)
      ensures usernameErrorMessage == old(usernameErrorMessage) && passwordErrorMessage == old(passwordErrorMessage)
    {
      open := false;
    }

    /** `validatePassword` on the password input's value: the username flag is cleared, the
        password flag and message follow the rule. */
    method ValidatePassword(password: string) returns (isValid: bool)
      modifies this
      ensures isValid == PasswordValid(password)
      ensures !usernameError && usernameErrorMessage == ""
      ensures passwordError == !isValid
      ensures passwordErrorMessage == (if isValid then "" else PasswordMessage)
      ensures open == old(open) && credentials == old(credentials)
    {
      isValid := true;
      usernameError := false;
      usernameErrorMessage := "";
      if password == "" || Utf16Length(password) < 6 {
        passwordError := true;
        passwordErrorMessage := PasswordMessage;
        isValid := false;
      } else {
        passwordError := false;
        passwordErrorMessage := "";
      }
    }

    /** `handleSubmit` with the form's two values and the request's outcome. The request and the
        `login` call use `credentials` as the handler saw it, before it is replaced by the
        submitted values. Returns whether the request was made and the credentials it carried. */
    method HandleSubmit(auth: Auth.AuthProvider, username: string, password: string, response: LoginResponse)
      returns (requested: bool, sent: Option<Credentials>)
      modifies this, auth
      ensures requested == SubmitProceedsAsWritten(old(usernameError), old(passwordError), username, password)
      ensures sent.Some? <==> requested
      ensures requested ==> sent == Some(old(credentials))
      ensures !usernameError && passwordError == !PasswordValid(password)
      ensures usernameErrorMessage == "" &&
              passwordErrorMessage == (if PasswordValid(password) then "" else PasswordMessage)
      ensures !requested ==> credentials == old(credentials) && open == old(open) &&
                             auth.storage == old(auth.storage) && auth.username == old(auth.username) &&
                             auth.isAuthenticated == old(auth.isAuthenticated)
      ensures requested ==> credentials == Credentials(username, password)
      ensures requested && LoginApi(response).success ==>
                auth.storage == Auth.LoginStorage(old(auth.storage)[Auth.JwtKey := LoginApi(response).token.value],
                                                  old(credentials).username) &&
                auth.isAuthenticated && auth.username == old(credentials).username && open == old(open)
      ensures requested && !LoginApi(response).success ==>
                open && auth.storage == old(auth.storage) && auth.username == old(auth.username) &&
                auth.isAuthenticated == old(auth.isAuthenticated)
    {
      var renderedUsernameError, renderedPasswordError := usernameError, passwordError;
      var current := credentials;
      var isValid := ValidatePassword(password);
      if !isValid {
        return false, None;
      }
      if renderedUsernameError || renderedPasswordError {
        return false, None;
      }
      if username == "" || password == "" {
        return false, None;
      }
      credentials := Credentials(username, password);
      requested, sent := true, Some(current);
      var result := LoginApi(response);
      if result.token.Some? {
        auth.StoreToken(result.token.value);
      }
      if result.success {
        auth.Login(current.username);
      } else {
        open := true;
      }
    }
  }

  /** An authenticated visitor is redirected to the dashboard instead of seeing the form. */
  function Redirect(isAuthenticated: bool): (target: Option<string>)
    ensures target.Some? <==> isAuthenticated
    ensures target.Some? ==> target.value == DashboardPath
  {
    if isAuthenticated then Some(DashboardPath) else None
  }
}
