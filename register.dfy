/**
 * The registration page (src/pages/Register.tsx): the five fields, their rules, and what
 * submitting does. The email and password rules are the sign-in page's.
 */
module Register {
  import opened Wrappers
  import opened Text
  import opened Types
  import opened Http
  import AuthService
  import AuthContext
  import Login

  const NameRequired: string := "El nombre es requerido"
  const NameTooShort: string := "El nombre debe tener al menos 2 caracteres"
  const ConfirmRequired: string := "Confirma tu contraseña"
  const PasswordsDiffer: string := "Las contraseñas no coinciden"
  const PhoneRequired: string := "El teléfono es requerido"
  const PhoneInvalid: string := "El teléfono no es válido"
  const RegisterFailed: string := "Error al registrar usuario. Intenta nuevamente."

  /** The name's message: judged on the trimmed name. */
  function NameError(name: string): (m: string)
    ensures m == "" <==> Utf16Length(Trim(name)) >= 2
    ensures m == NameRequired <==> AllSpace(name)
    ensures m in {"", NameRequired, NameTooShort}
  {
    if Trim(name) == "" then NameRequired
    else if Utf16Length(Trim(name)) < 2 then NameTooShort
    else ""
  }

  /** The confirmation's message. */
  function ConfirmError(password: string, confirm: string): (m: string)
    ensures m == "" <==> confirm != "" && confirm == password
    ensures m in {"", ConfirmRequired, PasswordsDiffer}
  {
    if confirm == "" then ConfirmRequired
    else if password != confirm then PasswordsDiffer
    else ""
  }

  /** A character of the phone pattern's class: a digit, a space, `-`, `(` or `)`. */
  predicate PhoneChar(c: char)
  {
    IsDigit(c) || IsSpace(c) || c == '-' || c == '(' || c == ')'
  }

  /** `/^\+?[\d\s\-\(\)]+$/.test(s)`: an optional `+`, then one or more characters of the class. */
  predicate LooksLikePhone(s: string)
  {
    |PhoneBody(s)| > 0 && AllPhoneChars(PhoneBody(s))
  }

  /** What the character class must cover: all but a leading `+`. */
  function PhoneBody(s: string): (t: string)
    ensures |t| <= |s|
  {
    if |s| > 0 && s[0] == '+' then s[1..] else s
  }

  predicate AllPhoneChars(t: string)
  {
    forall k :: 0 <= k < |t| ==> PhoneChar(t[k])
  }

  /** The phone's message. */
  function PhoneError(phone: string): (m: string)
    ensures m == "" <==> LooksLikePhone(phone)
    ensures m in {"", PhoneRequired, PhoneInvalid}
    ensures phone == "" ==> m == PhoneRequired
  {
    if phone == "" then PhoneRequired
    else if !LooksLikePhone(phone) then PhoneInvalid
    else ""
  }

  /** Some phones the rule accepts: the pattern asks for no digit at all, so punctuation alone passes. */
  lemma PhonesAccepted()
    ensures LooksLikePhone("+54 11 4567-8901")
    ensures LooksLikePhone("(011) 4567-8901")
    ensures LooksLikePhone("( )")
  {
    var paren := "( )";
    assert PhoneBody(paren) == paren;
    assert paren[0] == '(' && IsSpace(paren[1]) && paren[2] == ')';
  }

  /** Some phones the rule refuses: a bare `+`, a `+` past the start, letters. */
  lemma PhonesRejected()
    ensures !LooksLikePhone("+")
    ensures !LooksLikePhone("11+4567")
    ensures !LooksLikePhone("ab")
  {
    var plus := "11+4567";
    assert PhoneBody(plus) == plus && !PhoneChar(plus[2]);
    var letters := "ab";
    assert PhoneBody(letters) == letters && !PhoneChar(letters[0]);
  }

  /** An accepted phone keeps at most its leading `+` besides the pattern's characters. */
  lemma PhoneDigitsOnlyFromClass(s: string, k: int)
    requires LooksLikePhone(s) && 0 <= k < |s|
    ensures PhoneChar(s[k]) || (k == 0 && s[k] == '+')
  {
    if |s| > 0 && s[0] == '+' && k > 0 {
      assert s[k] == PhoneBody(s)[k - 1];
    }
  }

  datatype RegisterErrors = RegisterErrors(name: string, email: string, password: string, confirmPassword: string, phone: string)

  const NoErrors: RegisterErrors := RegisterErrors("", "", "", "", "")

  /** `validateForm`: each field's message by its own rule. */
  function ValidateRegister(form: RegisterForm): (e: RegisterErrors)
    ensures e.name == "" <==> Utf16Length(Trim(form.name)) >= 2
    ensures e.email == "" <==> form.email != "" && Login.LooksLikeEmail(form.email)
    ensures e.password == "" <==> Utf16Length(form.password) >= Login.MinPasswordLength
    ensures e.confirmPassword == "" <==> form.confirmPassword != "" && form.confirmPassword == form.password
    ensures e.phone == "" <==> LooksLikePhone(form.phone)
  {
    RegisterErrors(NameError(form.name), Login.EmailError(form.email), Login.PasswordError(form.password),
      ConfirmError(form.password, form.confirmPassword), PhoneError(form.phone))
  }

  /** The form is sent exactly when all five rules accept it. */
  lemma ValidRegisterForm(form: RegisterForm)
    ensures ValidateRegister(form) == NoErrors <==>
      && Utf16Length(Trim(form.name)) >= 2
      && Login.LooksLikeEmail(form.email)
      && Utf16Length(form.password) >= 6
      && form.confirmPassword == form.password
      && LooksLikePhone(form.phone)
  {
  }

  datatype RegisterField = NameField | EmailField | PasswordField | ConfirmField | PhoneField

  function SetField(form: RegisterForm, field: RegisterField, value: string): (f: RegisterForm)
  {
    match field
    case NameField => form.(name := value)
    case EmailField => form.(email := value)
    case PasswordField => form.(password := value)
    case ConfirmField => form.(confirmPassword := value)
    case PhoneField => form.(phone := value)
  }

  function ClearError(e: RegisterErrors, field: RegisterField): (g: RegisterErrors)
  {
    match field
    case NameField => e.(name := "")
    case EmailField => e.(email := "")
    case PasswordField => e.(password := "")
    case ConfirmField => e.(confirmPassword := "")
    case PhoneField => e.(phone := "")
  }

  class RegisterPage {
    var form: RegisterForm
    var errors: RegisterErrors
    var isSubmitting: bool
    var registerError: string

    constructor ()
      ensures form == RegisterForm("", "", "", "", "") && errors == NoErrors
      ensures !isSubmitting && registerError == ""
    {
      form := RegisterForm("", "", "", "", "");
      errors, isSubmitting, registerError := NoErrors, false, "";
    }

    /** `handleInputChange`: the field takes the value and its message is cleared. */
    method HandleInputChange(field: RegisterField, value: string)
      modifies this
      ensures form == SetField(old(form), field, value) && errors == ClearError(old(errors), field)
      ensures isSubmitting == old(isSubmitting) && registerError == old(registerError)
    {
      form := SetField(form, field, value);
      errors := ClearError(errors, field);
    }

    /**
     * `handleSubmit`: an invalid form is not sent; a valid one registers through the
     * context and then goes to the catalog or shows the failure message.
     */
    method HandleSubmit(auth: AuthContext.AuthProvider, resp: Response<RegisterApiResponse>, encodeUser: User -> string)
      returns (navigatedTo: Option<string>)
      modifies this`errors, this`registerError, this`isSubmitting, auth
      ensures errors == ValidateRegister(old(form))
      ensures if ValidateRegister(old(form)) != NoErrors then
          navigatedTo == None && registerError == "" && isSubmitting == old(isSubmitting) && unchanged(auth)
        else
          var c := AuthService.Register(old(auth.storage), resp);
          && !isSubmitting
          && !auth.isLoading
          && (c.result.Success? ==>
                navigatedTo == Some("/") && registerError == "" && auth.token == Some(c.result.value.authToken)
                && auth.user == Some(c.result.value.user)
                && auth.storage == c.storage[AuthTokenKey := c.result.value.authToken]
                                            [AuthUserKey := encodeUser(c.result.value.user)])
          && (c.result.Failure? ==>
                navigatedTo == None && registerError == RegisterFailed && auth.token == old(auth.token)
                && auth.user == old(auth.user) && auth.storage == c.storage)
    {
      var f := form;
      var e := ValidateRegister(f);
      if e == NoErrors {
        navigatedTo := Send(f, auth, resp, encodeUser);
      } else {
        registerError, navigatedTo := "", None;
      }
      errors := e;
    }

    /**
     * `handleSubmit` for a form that passed validation: the earlier failure message is
     * cleared, the context's `register` runs, then the outcome is shown.
     */
    method Send(f: RegisterForm, auth: AuthContext.AuthProvider, resp: Response<RegisterApiResponse>, encodeUser: User -> string)
      returns (navigatedTo: Option<string>)
      modifies this`registerError, this`isSubmitting, auth
      ensures !isSubmitting
      ensures var c := AuthService.Register(old(auth.storage), resp);
        && !auth.isLoading
        && (c.result.Success? ==>
              navigatedTo == Some("/") && registerError == "" && auth.token == Some(c.result.value.authToken)
              && auth.user == Some(c.result.value.user)
              && auth.storage == c.storage[AuthTokenKey := c.result.value.authToken]
                                          [AuthUserKey := encodeUser(c.result.value.user)])
        && (c.result.Failure? ==>
              navigatedTo == None && registerError == RegisterFailed && auth.token == old(auth.token)
              && auth.user == old(auth.user) && auth.storage == c.storage)
    {
      registerError, isSubmitting := "", true;
      var r, request := auth.Register(f, resp, encodeUser);
      navigatedTo := None;
      if r.Success? {
        navigatedTo := Some("/");
      } else {
        registerError := RegisterFailed;
      }
      isSubmitting := false;
    }
  }
}
