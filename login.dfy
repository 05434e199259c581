/** The login page (Components/Pages/LoginPage/Login.jsx): the field rules of
    `validateForm`, the change handler, and what a successful login stores.
    The service call is replaced by the response `handleSubmit` receives;
    local storage is modelled as two fields of the page. */
module Login {
  import opened Optional
  import opened Text
  import opened Records
  import opened Forms

  /** The error object `validateForm` builds: the email rule, then the
      password rule. */
  function LoginErrors(form: Fields): Fields {
    ErrorsOf(EmailError(Get(form, "email")), PasswordError(Get(form, "password")))
  }

  function ErrorsOf(email: Option<string>, password: Option<string>): Fields {
    WithError(WithError(map[], "email", email), "password", password)
  }

  /** One key per failing rule, holding that rule's message, and no other. */
  lemma ErrorsOfFields(email: Option<string>, password: Option<string>)
    ensures var r := ErrorsOf(email, password);
      && r.Keys <= {"email", "password"}
      && ("email" in r <==> email.Some?) && (email.Some? ==> r["email"] == email.value)
      && ("password" in r <==> password.Some?) && (password.Some? ==> r["password"] == password.value)
  {
  }

  /** The messages a form gets, field by field. */
  lemma LoginErrorMessages(form: Fields)
    ensures var r := LoginErrors(form);
      && ("email" in r <==> IsBlank(Get(form, "email")) || !EmailLike(Get(form, "email")))
      && (IsBlank(Get(form, "email")) ==> r["email"] == "Email is required")
      && (!IsBlank(Get(form, "email")) && !EmailLike(Get(form, "email")) ==> r["email"] == "Please enter a valid email")
      && ("password" in r <==> CodeUnits(Get(form, "password")) < 6)
      && (Get(form, "password") == "" ==> r["password"] == "Password is required")
      && (0 < CodeUnits(Get(form, "password")) < 6 ==> r["password"] == "Password must be at least 6 characters")
  {
    ErrorsOfFields(EmailError(Get(form, "email")), PasswordError(Get(form, "password")));
  }

  /** `validateForm() === true`: both rules pass. */
  predicate Accepted(form: Fields) {
    EmailError(Get(form, "email")).None? && PasswordError(Get(form, "password")).None?
  }

  /** A form is accepted exactly when its error object is empty, that is when
      its email is not blank and shaped like an address and its password has
      six or more UTF-16 code units. */
  lemma AcceptedLogins(form: Fields)
    ensures Accepted(form) <==> LoginErrors(form) == map[]
    ensures Accepted(form) <==>
      !IsBlank(Get(form, "email")) && EmailLike(Get(form, "email")) && CodeUnits(Get(form, "password")) >= 6
  {
    NoErrorsIff(EmailError(Get(form, "email")), PasswordError(Get(form, "password")));
  }

  /** The error object is empty exactly when both rules pass. */
  lemma NoErrorsIff(email: Option<string>, password: Option<string>)
    ensures ErrorsOf(email, password) == map[] <==> email.None? && password.None?
  {
    ErrorsOfFields(email, password);
    var r := ErrorsOf(email, password);
    if email.None? && password.None? {
      assert r.Keys == {};
    } else {
      assert "email" in r || "password" in r;
    }
  }

  /** `{...response.data.user, token: response.data.token}`: the user's
      fields, with the token replacing any field of that name. */
  function StoredUser(user: Fields, token: string): (r: Fields)
    ensures Get(r, "token") == token
    ensures forall k :: k != "token" ==> (k in r <==> k in user)
    ensures forall k :: k != "token" && k in user ==> r[k] == user[k]
    ensures r.Keys == user.Keys + {"token"}
  {
    user["token" := token]
  }

  /** Storing again keeps the user's fields and only the newest token. */
  lemma StoredUserRestored(user: Fields, first: string, second: string)
    ensures StoredUser(StoredUser(user, first), second) == StoredUser(user, second)
  {
  }

  /** What a sent login leaves in local storage, as (stored user, remembered
      email): a successful response stores the user with its token and, when
      "remember me" is ticked, the email; any other outcome stores nothing. */
  function AfterLogin(response: Response<(Fields, string)>, rememberMe: bool, email: string,
                      stored: Option<Fields>, remembered: Option<string>): (r: (Option<Fields>, Option<string>))
    ensures response.Success? ==> r.0.Some? && Get(r.0.value, "token") == response.value.1
    ensures response.Success? ==> forall k :: k != "token" ==> Get(r.0.value, k) == Get(response.value.0, k)
    ensures response.Success? && rememberMe ==> r.1 == Some(email)
    ensures !response.Success? ==> r == (stored, remembered)
    ensures !rememberMe ==> r.1 == remembered
  {
    match response
    case Success((user, token)) => (Some(StoredUser(user, token)), if rememberMe then Some(email) else remembered)
    case _ => (stored, remembered)
  }

  /** What `handleSubmit` leaves behind: the error object shown, the form
      sent (if any), and local storage. */
  datatype Submission = Submission(errors: Fields, sent: Option<Fields>, storedUser: Option<Fields>, rememberedEmail: Option<string>)

  /** `handleSubmit`: a form that is not accepted is not sent and changes no
      storage; an accepted one is sent as it stands, and the response decides
      what is stored. */
  function Submit(form: Fields, rememberMe: bool, response: Response<(Fields, string)>,
                  stored: Option<Fields>, remembered: Option<string>): (r: Submission)
    ensures r.errors == LoginErrors(form)
    ensures r.sent.Some? <==> LoginErrors(form) == map[]
    ensures r.sent.Some? ==> r.sent.value == form
    ensures r.sent.None? ==> r.storedUser == stored && r.rememberedEmail == remembered
    ensures r.sent.Some? ==> (r.storedUser, r.rememberedEmail) == AfterLogin(response, rememberMe, Get(form, "email"), stored, remembered)
  {
    AcceptedLogins(form);
    if Accepted(form) then
      var after := AfterLogin(response, rememberMe, Get(form, "email"), stored, remembered);
      Submission(LoginErrors(form), Some(form), after.0, after.1)
    else
      Submission(LoginErrors(form), None, stored, remembered)
  }

  /** The login form's component state, with what the page leaves in local
      storage: the stored user and the remembered email. */
  class Page {
    var formData: Fields
    var errors: Fields
    var loading: bool
    var showPassword: bool
    var rememberMe: bool
    var storedUser: Option<Fields>
    var rememberedEmail: Option<string>

    constructor (stored: Option<Fields>, remembered: Option<string>)
      ensures formData == map["email" := "", "password" := ""] && errors == map[]
      ensures !loading && !showPassword && !rememberMe
      ensures storedUser == stored && rememberedEmail == remembered
    {
      formData, errors := map["email" := "", "password" := ""], map[];
      loading, showPassword, rememberMe := false, false, false;
      storedUser, rememberedEmail := stored, remembered;
    }

    /** `handleChange`: sets the field and clears that field's error. */
    method HandleChange(name: string, value: string)
      modifies this
      ensures formData == SetField(old(formData), name, value)
      ensures errors == ClearError(old(errors), name)
      ensures loading == old(loading) && showPassword == old(showPassword) && rememberMe == old(rememberMe)
      ensures storedUser == old(storedUser) && rememberedEmail == old(rememberedEmail)
    {
      formData, errors := SetField(formData, name, value), ClearError(errors, name);
    }

    method TogglePassword()
      modifies this
      ensures showPassword == !old(showPassword)
      ensures formData == old(formData) && errors == old(errors) && loading == old(loading) && rememberMe == old(rememberMe)
      ensures storedUser == old(storedUser) && rememberedEmail == old(rememberedEmail)
    {
      showPassword := !showPassword;
    }

    method SetRememberMe(checked: bool)
      modifies this
      ensures rememberMe == checked
      ensures formData == old(formData) && errors == old(errors) && loading == old(loading) && showPassword == old(showPassword)
      ensures storedUser == old(storedUser) && rememberedEmail == old(rememberedEmail)
    {
      rememberMe := checked;
    }

    /** `validateForm`: the error object is shown, and the form is valid when
        it is empty. */
    method ValidateForm() returns (ok: bool)
      modifies this
      ensures errors == LoginErrors(formData)
      ensures ok <==> errors == map[]
      ensures formData == old(formData) && loading == old(loading) && showPassword == old(showPassword)
      ensures rememberMe == old(rememberMe) && storedUser == old(storedUser) && rememberedEmail == old(rememberedEmail)
    {
      var newErrors := LoginErrors(formData);
      errors := newErrors;
      ok := newErrors == map[];
    }

    /** The state setters `handleSubmit` calls, as one batched update. */
    method SetState(newErrors: Fields, stored: Option<Fields>, remembered: Option<string>, busy: bool)
      modifies this
      ensures errors == newErrors && storedUser == stored && rememberedEmail == remembered && loading == busy
      ensures formData == old(formData) && showPassword == old(showPassword) && rememberMe == old(rememberMe)
    {
      errors, storedUser, rememberedEmail, loading := newErrors, stored, remembered, busy;
    }

    /** `handleSubmit`: the state `Submit` describes; `loading` ends false
        once a form is sent. */
    method HandleSubmit(response: Response<(Fields, string)>) returns (sent: Option<Fields>)
      modifies this
      ensures var s := Submit(old(formData), old(rememberMe), response, old(storedUser), old(rememberedEmail));
        errors == s.errors && sent == s.sent && storedUser == s.storedUser && rememberedEmail == s.rememberedEmail
      ensures loading == (old(loading) && sent.None?)
      ensures formData == old(formData) && showPassword == old(showPassword) && rememberMe == old(rememberMe)
    {
      var s := Submit(formData, rememberMe, response, storedUser, rememberedEmail);
      SetState(s.errors, s.storedUser, s.rememberedEmail, loading && s.sent.None?);
      sent := s.sent;
    }
  }
}
