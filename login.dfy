/**
 * The sign-in page (src/pages/Login.tsx): the form, its validation, the error shown when
 * signing in fails, and where the visitor is sent afterwards. The email and password rules
 * are defined here once; the registration page applies the same two rules.
 */
module Login {
  import opened Wrappers
  import opened Text
  import opened Types
  import opened Http
  import AuthService
  import AuthContext
  import ProtectedRoute

  const EmailRequired: string := "El email es requerido"
  const EmailInvalid: string := "El email no es válido"
  const PasswordRequired: string := "La contraseña es requerida"
  const PasswordTooShort: string := "La contraseña debe tener al menos 6 caracteres"
  const LoginFailed: string := "Error al iniciar sesión. Verifica tus credenciales."
  const MinPasswordLength: nat := 6

  /**
   * `/\S+@\S+\.\S+/.test(s)`, unanchored: somewhere in `s` a non-space, an `@`, a run of
   * non-spaces, a `.` and a non-space follow one another.
   */
  predicate LooksLikeEmail(s: string)
  {
    exists a, b | 0 <= a < |s| && 0 <= b < |s| :: EmailAt(s, a, b)
  }

  /** The match with its `@` at `a` and its `.` at `b`. */
  predicate EmailAt(s: string, a: int, b: int)
  {
    && 1 <= a && a + 2 <= b && b + 1 < |s|
    && s[a] == '@' && s[b] == '.'
    && !IsSpace(s[a - 1]) && !IsSpace(s[b + 1])
    && forall k :: a < k < b ==> !IsSpace(s[k])
  }

  /** The message for the email field; "" when it is accepted. */
  function EmailError(email: string): (m: string)
    ensures m == "" <==> email != "" && LooksLikeEmail(email)
    ensures m in {"", EmailRequired, EmailInvalid}
    ensures email == "" ==> m == EmailRequired
  {
    if email == "" then EmailRequired
    else if !LooksLikeEmail(email) then EmailInvalid
    else ""
  }

  /** The message for the password field; "" when it is accepted. */
  function PasswordError(password: string): (m: string)
    ensures m == "" <==> Utf16Length(password) >= MinPasswordLength
    ensures m in {"", PasswordRequired, PasswordTooShort}
    ensures password == "" ==> m == PasswordRequired
  {
    if password == "" then PasswordRequired
    else if Utf16Length(password) < MinPasswordLength then PasswordTooShort
    else ""
  }

  /** The messages under each field; "" for a field with none. */
  datatype LoginErrors = LoginErrors(email: string, password: string)

  const NoErrors: LoginErrors := LoginErrors("", "")

  /** `validateForm`: each field's message by its own rule. */
  function ValidateLogin(form: LoginForm): (e: LoginErrors)
    ensures e.email == "" <==> form.email != "" && LooksLikeEmail(form.email)
    ensures e.password == "" <==> Utf16Length(form.password) >= MinPasswordLength
  {
    LoginErrors(EmailError(form.email), PasswordError(form.password))
  }

  /** The form is sent exactly when the email looks like one and the password has six code units. */
  lemma ValidLoginForm(form: LoginForm)
    ensures ValidateLogin(form) == NoErrors <==> LooksLikeEmail(form.email) && Utf16Length(form.password) >= 6
  {
  }

  /** Three characters outside the Basic Multilingual Plane are six code units: long enough. */
  lemma PasswordCountsCodeUnits()
    ensures |"\U{1F511}\U{1F511}\U{1F511}"| == 3
    ensures PasswordError("\U{1F511}\U{1F511}\U{1F511}") == ""
    ensures PasswordError("abc") == PasswordTooShort
  {
  }

  /** Some inputs the email rule accepts and rejects; being unanchored it accepts text around an address. */
  lemma EmailExamples()
    ensures LooksLikeEmail("ana@mail.com")
    ensures LooksLikeEmail("mi correo: ana@mail.com")
    ensures !LooksLikeEmail("ana@mail")
    ensures !LooksLikeEmail("@mail.com")
  {
    assert EmailAt("ana@mail.com", 3, 8);
    assert EmailAt("mi correo: ana@mail.com", 14, 19);
  }

  /** An accepted email has at least five characters and an `@` and a `.` after it. */
  lemma EmailShape(s: string)
    requires LooksLikeEmail(s)
    ensures |s| >= 5 && Contains(s, "@") && Contains(s, ".")
  {
    var a: int, b: int :| 0 <= a < |s| && 0 <= b < |s| && EmailAt(s, a, b);
    assert s[a..a + 1] == "@" && InfixAt(s, "@", a);
    assert s[b..b + 1] == "." && InfixAt(s, ".", b);
  }

  /** Where a successful sign-in leads: `from?.pathname || '/'`. */
  function AfterLoginTarget(from: Option<string>): (t: string)
    ensures t != ""
    ensures from.Some? && from.value != "" ==> t == from.value
  {
    if from.Some? && from.value != "" then from.value else "/"
  }

  /** A guest turned away from a protected page comes back to it after signing in. */
  lemma ReturnsToProtectedPage(location: string)
    requires location != ""
    ensures var n := ProtectedRoute.Decide(true, ProtectedRoute.DefaultRedirectTo, false, location);
      n.Navigate? && n.to == "/login" && AfterLoginTarget(n.from) == location
  {
  }

  datatype LoginField = EmailField | PasswordField

  /** The page's state. */
  class LoginPage {
    var form: LoginForm
    var errors: LoginErrors
    var isSubmitting: bool
    var loginError: string

    constructor ()
      ensures form == LoginForm("", "") && errors == NoErrors && !isSubmitting && loginError == ""
    {
      form, errors, isSubmitting, loginError := LoginForm("", ""), NoErrors, false, "";
    }

    /** `handleInputChange`: the field takes the value and its message, if any, is cleared. */
    method HandleInputChange(field: LoginField, value: string)
      modifies this
      ensures field == EmailField ==> form == old(form).(email := value) && errors == old(errors).(email := "")
      ensures field == PasswordField ==> form == old(form).(password := value) && errors == old(errors).(password := "")
      ensures isSubmitting == old(isSubmitting) && loginError == old(loginError)
    {
      match field {
        case EmailField =>
          form := form.(email := value);
          if errors.email != "" {
            errors := errors.(email := "");
          }
        case PasswordField =>
          form := form.(password := value);
          if errors.password != "" {
            errors := errors.(password := "");
          }
      }
    }

    /**
     * `handleSubmit`, given the server's answer to the sign-in and the origin the guard
     * recorded: an invalid form is not sent; a valid one signs in through the context, and
     * then either navigates back or shows the failure message.
     */
    method HandleSubmit(auth: AuthContext.AuthProvider, resp: Response<LoginApiResponse>, from: Option<string>)
      returns (navigatedTo: Option<string>)
      modifies this, auth
      ensures errors == ValidateLogin(old(form)) && form == old(form)
      ensures errors != NoErrors ==> (navigatedTo == None && loginError == "" && isSubmitting == old(isSubmitting)
        && unchanged(auth))
      ensures errors == NoErrors ==> !isSubmitting && auth.user == old(auth.user)
      ensures errors == NoErrors ==>
        var c := AuthService.Login(old(auth.storage), resp);
        && (c.result.Success? ==>
              navigatedTo == Some(AfterLoginTarget(from)) && loginError == ""
              && auth.token == Some(c.result.value.token)
              && auth.storage == c.storage[AuthTokenKey := c.result.value.token])
        && (c.result.Failure? ==>
              navigatedTo == None && loginError == LoginFailed
              && auth.token == old(auth.token) && auth.storage == c.storage)
    {
      loginError := "";
      errors := ValidateLogin(form);
      navigatedTo := None;
      if errors != NoErrors {
        return;
      }
      isSubmitting := true;
      var r := auth.Login(resp);
      if r.Success? {
        navigatedTo := Some(AfterLoginTarget(from));
      } else {
        loginError := LoginFailed;
      }
      isSubmitting := false;
    }
  }
}
