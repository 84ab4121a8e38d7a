/** What the sign-up and log-in forms share: the email rule, editing one
    field (which clears that field's error), and the message shown when the
    server rejects a submission. Form values are the inputs' strings; the
    error record maps a field name to the text shown under it. */
module Forms {
  import opened Text
  import opened Js

  const EmailRequired: string := "Email is required"
  const EmailInvalid: string := "Email is invalid"
  const PasswordRequired: string := "Password is required"

  /** The email check: required first, then the `\S+@\S+\.\S+` test. */
  function EmailError(email: string): (r: Option<string>)
    ensures r.None? <==> email != "" && MatchesEmailPattern(email)
    ensures email == "" ==> r == Some(EmailRequired)
    ensures email != "" && !MatchesEmailPattern(email) ==> r == Some(EmailInvalid)
  {
    if email == "" then Some(EmailRequired)
    else if !MatchesEmailPattern(email) then Some(EmailInvalid)
    else None
  }

  /** A well-formed address passes and a bare name does not. */
  lemma EmailErrorExamples()
    ensures EmailError("a@b.c").None?
    ensures EmailError("a@b") == Some(EmailInvalid)
  {
    EmailPatternExamples();
  }

  /** `{ ...formData, [name]: value }`. */
  function Edited<K(!new)>(form: map<K, string>, name: K, value: string): (r: map<K, string>)
    ensures name in r && r[name] == value
    ensures forall k :: k != name ==> (k in r <==> k in form) && (k in form ==> r[k] == form[k])
  {
    form[name := value]
  }

  /** `if (errors[name]) setErrors({ ...errors, [name]: '' })`: a shown error of the edited field
      is blanked (the key stays); every other error is kept. */
  function ClearFieldError<K(!new)>(errors: map<K, JsValue>, name: K): (r: map<K, JsValue>)
    ensures !(name in r && Truthy(r[name]))
    ensures ErrorShown(errors, name) ==> name in r && r[name] == Str("")
    ensures !ErrorShown(errors, name) ==> r == errors
    ensures forall k :: k != name ==> (k in r <==> k in errors) && (k in errors ==> r[k] == errors[k])
  {
    if ErrorShown(errors, name) then errors[name := Str("")] else errors
  }

  /** `errors[name]` is truthy: a missing entry reads as undefined. */
  predicate ErrorShown<K(!new)>(errors: map<K, JsValue>, name: K) {
    name in errors && Truthy(errors[name])
  }

  /** Editing a field twice is editing it once with the last value, and the errors are cleared
      once. */
  lemma EditTwice<K(!new)>(form: map<K, string>, errors: map<K, JsValue>, name: K, v1: string, v2: string)
    ensures Edited(Edited(form, name, v1), name, v2) == Edited(form, name, v2)
    ensures ClearFieldError(ClearFieldError(errors, name), name) == ClearFieldError(errors, name)
  {
  }

  /** `error.response?.data?.message || fallback`; `None` when the error itself is null or
      undefined (reading `response` throws inside the catch block). */
  function ServerMessage(err: JsValue, fallback: string): (r: Option<JsValue>)
    requires fallback != ""
    ensures r.None? <==> Nullish(err)
    ensures r.Some? ==> Truthy(r.value)
    ensures r.Some? && !Truthy(OptGet(OptGet(Member(err, "response"), "data"), "message")) ==> r.value == Str(fallback)
    ensures r.Some? && Truthy(OptGet(OptGet(Member(err, "response"), "data"), "message")) ==>
      r.value == OptGet(OptGet(Member(err, "response"), "data"), "message")
  {
    if Nullish(err) then None
    else Some(Or(OptGet(OptGet(Member(err, "response"), "data"), "message"), Str(fallback)))
  }

  /** An error the app throws itself carries no response, so the fallback text is shown. */
  lemma OwnErrorsShowFallback(message: string, fallback: string)
    requires fallback != ""
    ensures ServerMessage(TypeError(message), fallback) == Some(Str(fallback))
  {
  }

  /** A server rejection with a message shows that message. */
  lemma ServerTextShown(message: string, fallback: string)
    requires message != "" && fallback != ""
    ensures ServerMessage(Obj(map["response" := Obj(map["data" := Obj(map["message" := Str(message)])])]), fallback)
      == Some(Str(message))
  {
  }
}
