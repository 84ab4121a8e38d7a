/** The log-in page: an email and password form, a validation step that
    blocks submission, and a submission that drives the auth slice and
    redirects to the dashboard of the returned role. */
module Login {
  import opened Text
  import opened Js
  import opened AuthSlice
  import opened Forms

  const LoginFailedText: string := "Login failed. Please try again."

  /** `/${response.user.role}/dashboard`, with the role as the server sent it. */
  function DashboardPath(role: string): (p: string)
    ensures |p| == |role| + 11 && p[..1] == "/" && p[1..|role| + 1] == role && p[|role| + 1..] == "/dashboard"
  {
    "/" + role + "/dashboard"
  }

  /** The role text of a response the success reducer accepts. */
  function ResponseRole(response: JsValue): (role: string)
    requires LoginRole(response).Some?
    ensures ToLower(role) == LoginRole(response).value
  {
    Member(Member(response, "user"), "role").s
  }

  /** Whether validation stops a submission of these values. */
  predicate Blocked(form: map<string, string>)
    requires "email" in form && "password" in form
  {
    EmailError(form["email"]).Some? || form["password"] == ""
  }

  /** What `validate` reports for these values: an email entry exactly when the email rule
      fails, with its message, a password entry exactly when the password is empty, and
      nothing else. */
  predicate ReportsErrors(form: map<string, string>, e: map<string, JsValue>)
    requires "email" in form && "password" in form
  {
    && e.Keys <= {"email", "password"}
    && ("email" in e <==> EmailError(form["email"]).Some?)
    && ("email" in e ==> e["email"] == Str(EmailError(form["email"]).value))
    && ("password" in e <==> form["password"] == "")
    && ("password" in e ==> e["password"] == Str(PasswordRequired))
  }

  /** Validation stops a submission exactly when it reports some error. */
  lemma BlockedIffReported(form: map<string, string>, e: map<string, JsValue>)
    requires "email" in form && "password" in form && ReportsErrors(form, e)
    ensures Blocked(form) <==> |e| > 0
  {
    if Blocked(form) {
      assert "email" in e || "password" in e;
    } else {
      assert e.Keys == {};
    }
  }

  class LoginPage {
    const store: AuthStore
    var formData: map<string, string>
    var errors: map<string, JsValue>
    var loading: bool

    /** Both fields are always in the form. */
    predicate Valid()
      reads this
    {
      "email" in formData && "password" in formData
    }

    constructor (store: AuthStore)
      ensures this.store == store && Valid()
      ensures formData == map["email" := "", "password" := ""] && errors == map[] && !loading
    {
      this.store := store;
      formData := map["email" := "", "password" := ""];
      errors := map[];
      loading := false;
    }

    /** `handleChange`: the named field takes the value and only that field's error is cleared. */
    method HandleChange(name: string, value: string)
      requires Valid()
      modifies this`formData, this`errors
      ensures Valid()
      ensures formData == Edited(old(formData), name, value)
      ensures errors == ClearFieldError(old(errors), name)
    {
      formData := formData[name := value];
      if name in errors && Truthy(errors[name]) {
        errors := errors[name := Str("")];
      }
    }

    /** `validate`: the email rule, and only emptiness for the password (no length rule). */
    method Validate() returns (newErrors: map<string, JsValue>)
      requires Valid()
      ensures ReportsErrors(formData, newErrors)
    {
      newErrors := map[];
      if formData["email"] == "" {
        newErrors := newErrors["email" := Str(EmailRequired)];
      } else if !MatchesEmailPattern(formData["email"]) {
        newErrors := newErrors["email" := Str(EmailInvalid)];
      }
      if formData["password"] == "" {
        newErrors := newErrors["password" := Str(PasswordRequired)];
      }
    }

    /** `handleSubmit`. Validation errors stop it before anything else happens. Otherwise the slice
        goes through `loginStart` and then `loginSuccess` or `loginFailure`: a response the success
        reducer cannot read counts as a failure with the fallback text, and a rejection with no
        error value throws out of the catch block, leaving the slice loading. `redirect` is the
        navigation target. */
    method HandleSubmit(outcome: ServiceOutcome) returns (redirect: Option<string>)
      requires Valid()
      modifies this`errors, this`loading, store
      ensures Valid() && formData == old(formData)
      ensures Blocked(old(formData)) ==>
        && redirect.None? && loading == old(loading) && unchanged(store)
        && ReportsErrors(formData, errors) && |errors| > 0
      ensures !Blocked(old(formData)) ==> !loading
      ensures redirect.Some? <==> !Blocked(old(formData)) && outcome.Resolved? && LoginRole(outcome.response).Some?
      ensures redirect.Some? ==>
        && redirect.value == DashboardPath(ResponseRole(outcome.response))
        && store.isAuthenticated && !store.loading && store.role == Str(LoginRole(outcome.response).value)
        && errors == old(errors)
      ensures !Blocked(old(formData)) && outcome.Resolved? && LoginRole(outcome.response).None? ==>
        && errors == map["general" := Str(LoginFailedText)]
        && store.error == Str(LoginFailedText) && !store.isAuthenticated && !store.loading
      ensures !Blocked(old(formData)) && outcome.Rejected? && !Nullish(outcome.error) ==>
        && errors == map["general" := ServerMessage(outcome.error, LoginFailedText).value]
        && store.error == ServerMessage(outcome.error, LoginFailedText).value
        && !store.isAuthenticated && !store.loading
      ensures !Blocked(old(formData)) && outcome.Rejected? && Nullish(outcome.error) ==>
        errors == old(errors) && store.loading && redirect.None?
    {
      var newErrors := Validate();
      if |newErrors| > 0 {
        errors := newErrors;
        return None;
      }
      loading := true;
      store.LoginStart();
      match outcome {
        case Resolved(response) =>
          var threw := store.LoginSuccess(response);
          if threw {
            var message := Str(LoginFailedText);
            store.LoginFailure(message);
            errors := map["general" := message];
            redirect := None;
          } else {
            redirect := Some(DashboardPath(ResponseRole(response)));
          }
        case Rejected(err) =>
          var message := ServerMessage(err, LoginFailedText);
          if message.Some? {
            store.LoginFailure(message.value);
            errors := map["general" := message.value];
          }
          redirect := None;
      }
      loading := false;
    }
  }

  /** A success response whose user's role is written "Doctor": the slice keeps the lower-cased
      role while the page navigates with the text as sent. */
  lemma DoctorResponseRoles(user: map<string, JsValue>)
    requires user.Keys == {"role"} && user["role"] == Str("Doctor")
    ensures LoginRole(Obj(map["user" := Obj(user), "token" := Str("t")])) == Some("doctor")
    ensures ResponseRole(Obj(map["user" := Obj(user), "token" := Str("t")])) == "Doctor"
    ensures DashboardPath("Doctor") == "/Doctor/dashboard"
  {
    var m := map["user" := Obj(user), "token" := Str("t")];
    assert "user" in m && m["user"] == Obj(user);
    assert Member(Obj(user), "role") == Str("Doctor");
    LowerDoctor();
  }

  lemma LowerDoctor()
    ensures ToLower("Doctor") == "doctor"
  {
    var r := ToLower("Doctor");
    assert r[0] == LowerChar('D') == 'd';
  }

  /** A successful log-in redirects to the dashboard of the role as the server spelled it, while the
      slice keeps the lower-cased role: "Doctor" goes to "/Doctor/dashboard" with role "doctor". */
  method RedirectKeepsCase(store: AuthStore, user: map<string, JsValue>) returns (page: LoginPage, redirect: Option<string>)
    requires user.Keys == {"role"} && user["role"] == Str("Doctor")
    modifies store
    ensures redirect == Some("/Doctor/dashboard")
    ensures store.role == Str("doctor") && store.isAuthenticated
  {
    page := new LoginPage(store);
    page.HandleChange("email", "a@b.c");
    page.HandleChange("password", "secret");
    EmailErrorExamples();
    assert !Blocked(page.formData);
    DoctorResponseRoles(user);
    redirect := page.HandleSubmit(Resolved(Obj(map["user" := Obj(user), "token" := Str("t")])));
  }

  /** A rejected log-in shows the server's message, records it in the slice, and ends loading. */
  method RejectedShowsMessage(page: LoginPage, err: JsValue) returns (redirect: Option<string>)
    requires page.Valid() && !Nullish(err)
    requires EmailError(page.formData["email"]).None? && page.formData["password"] != ""
    modifies page`errors, page`loading, page.store
    ensures redirect.None? && !page.loading
    ensures page.errors == map["general" := ServerMessage(err, LoginFailedText).value]
    ensures page.store.error == ServerMessage(err, LoginFailedText).value && !page.store.isAuthenticated
  {
    redirect := page.HandleSubmit(Rejected(err));
  }
}
