/** The sign-up page: one form for patients and doctors (doctors fill in
    four more required fields), a validation step that blocks submission
    while any error is found, and the registration record sent to the
    server. */
module Register {
  import opened Text
  import opened Js
  import opened Forms

  const FirstNameRequired: string := "First name is required"
  const LastNameRequired: string := "Last name is required"
  const PasswordTooShort: string := "Password must be at least 8 characters"
  const PasswordsDiffer: string := "Passwords do not match"
  const PhoneRequired: string := "Phone number is required"
  const SpecializationRequired: string := "Specialization is required"
  const LicenseRequired: string := "License number is required"
  const ExperienceRequired: string := "Experience is required"
  const FeeRequired: string := "Consultation fee is required"
  const RegistrationFailedText: string := "Registration failed. Please try again."

  /** The inputs of the form, by their `name`, and the `general` entry of the error record. */
  datatype Field =
    | FirstName | LastName | Email | Password | ConfirmPassword | Phone
    | Specialization | LicenseNumber | Experience | ConsultationFee | About
    | General

  /** The account type picked with the two buttons at the top of the form. */
  datatype UserType = Patient | Doctor

  /** Every input of the form is present; all start empty and stay present. */
  predicate HasAllFields(form: map<Field, string>) {
    forall f: Field :: !f.General? ==> f in form
  }

  const EmptyForm: map<Field, string> := map[
    FirstName := "", LastName := "", Email := "", Password := "", ConfirmPassword := "",
    Phone := "", Specialization := "", LicenseNumber := "", Experience := "",
    ConsultationFee := "", About := ""
  ]

  /** The password rule: required, then a `length` of at least eight UTF-16 code units. */
  function PasswordError(password: string): (r: Option<string>)
    ensures r.None? <==> Utf16Length(password) >= 8
    ensures password == "" ==> r == Some(PasswordRequired)
    ensures password != "" && Utf16Length(password) < 8 ==> r == Some(PasswordTooShort)
    ensures |password| >= 8 ==> r.None?
  {
    if password == "" then Some(PasswordRequired)
    else if Utf16Length(password) < 8 then Some(PasswordTooShort)
    else None
  }

  /** Four padlock emoji make a password of length eight, which the rule accepts although it is
      four characters long; seven plain characters are too short. */
  lemma AstralPasswordAccepted(password: string, plain: string)
    requires password == "\U{1F512}\U{1F512}\U{1F512}\U{1F512}"
    requires |plain| == 7 && forall i :: 0 <= i < 7 ==> (plain[i] as int) < 0x1_0000
    ensures |password| == 4 && PasswordError(password).None?
    ensures PasswordError(plain) == Some(PasswordTooShort)
  {
    var lock := '\U{1F512}';
    assert password[..1] == [lock] && password[..2] == [lock, lock] && password[..3] == [lock, lock, lock];
    assert Utf16Length([lock]) == 2;
    assert [lock, lock][..1] == [lock];
    assert Utf16Length([lock, lock]) == 4;
    assert [lock, lock, lock][..2] == [lock, lock];
    assert Utf16Length([lock, lock, lock]) == 6;
    assert password[..3] == [lock, lock, lock];
    Utf16LengthOfBmp(plain);
  }

  /** Whether validation finds nothing wrong: the six common rules pass and, for a doctor, the
      four doctor fields are filled in. */
  predicate Acceptable(form: map<Field, string>, userType: UserType)
    requires HasAllFields(form)
  {
    && form[FirstName] != "" && form[LastName] != "" && EmailError(form[Email]).None?
    && PasswordError(form[Password]).None? && form[Password] == form[ConfirmPassword]
    && form[Phone] != ""
    && (userType == Doctor ==>
          form[Specialization] != "" && form[LicenseNumber] != "" && form[Experience] != ""
          && form[ConsultationFee] != "")
  }

  /** The message `validate` records under field `f`, or `None` when that field's rule passes.
      The doctor-only rules apply only to a doctor; `about` and `general` have no rule. */
  function Rule(form: map<Field, string>, userType: UserType, f: Field): (r: Option<string>)
    requires HasAllFields(form)
    ensures f.About? || f.General? ==> r.None?
    ensures IsDoctorField(f) && userType != Doctor ==> r.None?
  {
    match f
    case FirstName => if form[FirstName] == "" then Some(FirstNameRequired) else None
    case LastName => if form[LastName] == "" then Some(LastNameRequired) else None
    case Email => EmailError(form[Email])
    case Password => PasswordError(form[Password])
    case ConfirmPassword => if form[Password] != form[ConfirmPassword] then Some(PasswordsDiffer) else None
    case Phone => if form[Phone] == "" then Some(PhoneRequired) else None
    case Specialization =>
      if userType == Doctor && form[Specialization] == "" then Some(SpecializationRequired) else None
    case LicenseNumber =>
      if userType == Doctor && form[LicenseNumber] == "" then Some(LicenseRequired) else None
    case Experience =>
      if userType == Doctor && form[Experience] == "" then Some(ExperienceRequired) else None
    case ConsultationFee =>
      if userType == Doctor && form[ConsultationFee] == "" then Some(FeeRequired) else None
    case About => None
    case General => None
  }

  predicate IsDoctorField(f: Field) {
    f == Specialization || f == LicenseNumber || f == Experience || f == ConsultationFee
  }

  /** One rule applied to the error record: a failing rule records its message under its field. */
  function Checked(form: map<Field, string>, userType: UserType, errors: map<Field, JsValue>, key: Field): map<Field, JsValue>
    requires HasAllFields(form)
  {
    var rule := Rule(form, userType, key);
    if rule.Some? then errors[key := Str(rule.value)] else errors
  }

  /** The name and email rules, in the order `validate` applies them. */
  function ContactStage(form: map<Field, string>, userType: UserType, e: map<Field, JsValue>): map<Field, JsValue>
    requires HasAllFields(form)
  {
    Checked(form, userType, Checked(form, userType, Checked(form, userType, e, FirstName), LastName), Email)
  }

  /** The password, confirmation and phone rules. */
  function PasswordStage(form: map<Field, string>, userType: UserType, e: map<Field, JsValue>): map<Field, JsValue>
    requires HasAllFields(form)
  {
    Checked(form, userType, Checked(form, userType, Checked(form, userType, e, Password), ConfirmPassword), Phone)
  }

  /** The four doctor-only rules. */
  function DoctorStage(form: map<Field, string>, userType: UserType, e: map<Field, JsValue>): map<Field, JsValue>
    requires HasAllFields(form)
  {
    var e1 := Checked(form, userType, e, Specialization);
    var e2 := Checked(form, userType, e1, LicenseNumber);
    Checked(form, userType, Checked(form, userType, e2, Experience), ConsultationFee)
  }

  /** The error record `validate` returns. */
  function ErrorsOf(form: map<Field, string>, userType: UserType): map<Field, JsValue>
    requires HasAllFields(form)
  {
    DoctorStage(form, userType, PasswordStage(form, userType, ContactStage(form, userType, map[])))
  }

  /** At field `f`, `e` holds the message of `f`'s rule exactly when `f` is among the fields
      checked so far and its rule fails. */
  predicate AgreesAt(form: map<Field, string>, userType: UserType, e: map<Field, JsValue>, fields: set<Field>, f: Field)
    requires HasAllFields(form)
  {
    && (f in e <==> f in fields && Rule(form, userType, f).Some?)
    && (f in e ==> e[f] == Str(Rule(form, userType, f).value))
  }

  /** Applying one more rule adds its field to the checked ones. */
  lemma CheckedAgrees(form: map<Field, string>, userType: UserType, e: map<Field, JsValue>, fields: set<Field>,
                      key: Field, f: Field)
    requires HasAllFields(form) && AgreesAt(form, userType, e, fields, f)
    ensures AgreesAt(form, userType, Checked(form, userType, e, key), fields + {key}, f)
  {
  }

  /** A field has an entry exactly when its rule fails, and the entry is that rule's message. */
  lemma ErrorsOfField(form: map<Field, string>, userType: UserType, f: Field)
    requires HasAllFields(form)
    ensures f in ErrorsOf(form, userType) <==> Rule(form, userType, f).Some?
    ensures f in ErrorsOf(form, userType) ==> ErrorsOf(form, userType)[f] == Str(Rule(form, userType, f).value)
  {
    var e0: map<Field, JsValue> := map[];
    var e1 := Checked(form, userType, e0, FirstName);
    var e2 := Checked(form, userType, e1, LastName);
    var e3 := Checked(form, userType, e2, Email);
    var e4 := Checked(form, userType, e3, Password);
    var e5 := Checked(form, userType, e4, ConfirmPassword);
    var e6 := Checked(form, userType, e5, Phone);
    var e7 := Checked(form, userType, e6, Specialization);
    var e8 := Checked(form, userType, e7, LicenseNumber);
    var e9 := Checked(form, userType, e8, Experience);
    var s1 := {FirstName};
    var s2 := s1 + {LastName};
    var s3 := s2 + {Email};
    var s4 := s3 + {Password};
    var s5 := s4 + {ConfirmPassword};
    var s6 := s5 + {Phone};
    var s7 := s6 + {Specialization};
    var s8 := s7 + {LicenseNumber};
    var s9 := s8 + {Experience};
    CheckedAgrees(form, userType, e0, {}, FirstName, f);
    assert {} + {FirstName} == s1;
    CheckedAgrees(form, userType, e1, s1, LastName, f);
    CheckedAgrees(form, userType, e2, s2, Email, f);
    CheckedAgrees(form, userType, e3, s3, Password, f);
    CheckedAgrees(form, userType, e4, s4, ConfirmPassword, f);
    CheckedAgrees(form, userType, e5, s5, Phone, f);
    CheckedAgrees(form, userType, e6, s6, Specialization, f);
    CheckedAgrees(form, userType, e7, s7, LicenseNumber, f);
    CheckedAgrees(form, userType, e8, s8, Experience, f);
    CheckedAgrees(form, userType, e9, s9, ConsultationFee, f);
    if !f.About? && !f.General? {
      assert f in s9 + {ConsultationFee};
    }
  }

  /** The record is empty exactly when the form is acceptable, which is what lets `handleSubmit`
      go on. */
  lemma NothingReportedIffAcceptable(form: map<Field, string>, userType: UserType)
    requires HasAllFields(form)
    ensures ErrorsOf(form, userType) == map[] <==> Acceptable(form, userType)
  {
    if Acceptable(form, userType) {
      forall f
        ensures f !in ErrorsOf(form, userType)
      {
        ErrorsOfField(form, userType, f);
      }
      assert ErrorsOf(form, userType).Keys == {};
    } else {
      var f := FailingField(form, userType);
      ErrorsOfField(form, userType, f);
    }
  }

  /** The first field, in `validate`'s order, whose rule fails on a form that is not acceptable. */
  function FailingField(form: map<Field, string>, userType: UserType): (f: Field)
    requires HasAllFields(form) && !Acceptable(form, userType)
    ensures Rule(form, userType, f).Some?
  {
    if form[FirstName] == "" then FirstName
    else if form[LastName] == "" then LastName
    else if EmailError(form[Email]).Some? then Email
    else if PasswordError(form[Password]).Some? then Password
    else if form[Password] != form[ConfirmPassword] then ConfirmPassword
    else if form[Phone] == "" then Phone
    else if form[Specialization] == "" then Specialization
    else if form[LicenseNumber] == "" then LicenseNumber
    else if form[Experience] == "" then Experience
    else ConsultationFee
  }

  /** The keys of the registration record. */
  datatype PayloadKey =
    | EmailKey | PasswordKey | FirstNameKey | LastNameKey | PhoneKey
    | SpecializationIdKey | LicenseNumberKey | ExperienceYearsKey | AboutKey | QualificationKey

  /** The property name each key is sent under. */
  function KeyName(k: PayloadKey): string {
    match k
    case EmailKey => "email"
    case PasswordKey => "password"
    case FirstNameKey => "firstName"
    case LastNameKey => "lastName"
    case PhoneKey => "phone"
    case SpecializationIdKey => "specializationId"
    case LicenseNumberKey => "licenseNumber"
    case ExperienceYearsKey => "experienceYears"
    case AboutKey => "about"
    case QualificationKey => "qualification"
  }

  /** No two keys share a property name. */
  lemma KeyNamesDistinct(k: PayloadKey, k': PayloadKey)
    requires KeyName(k) == KeyName(k')
    ensures k == k'
  {
  }

  const CommonKeys: set<PayloadKey> := {EmailKey, PasswordKey, FirstNameKey, LastNameKey, PhoneKey}

  /** What is sent to the server. The fee is kept apart because it is a fractional number;
      `consultationFee` is `None` for a patient and `Some(None)` when `parseFloat` gives NaN. */
  datatype Registration = Registration(fields: map<PayloadKey, JsValue>, consultationFee: Option<Option<real>>)

  /** The five fields every registration carries. */
  function CommonPayload(form: map<Field, string>): (r: map<PayloadKey, JsValue>)
    requires HasAllFields(form)
    ensures r.Keys == CommonKeys
    ensures r[EmailKey] == Str(form[Email]) && r[PasswordKey] == Str(form[Password])
    ensures r[FirstNameKey] == Str(form[FirstName]) && r[LastNameKey] == Str(form[LastName])
    ensures r[PhoneKey] == Str(form[Phone])
  {
    map[
      EmailKey := Str(form[Email]),
      PasswordKey := Str(form[Password]),
      FirstNameKey := Str(form[FirstName]),
      LastNameKey := Str(form[LastName]),
      PhoneKey := Str(form[Phone])
    ]
  }

  const DoctorKeys: set<PayloadKey> := {SpecializationIdKey, LicenseNumberKey, ExperienceYearsKey, AboutKey, QualificationKey}

  /** The fields a doctor's registration adds: the lower-cased specialization id, the license,
      `parseInt` of the experience (NaN when it has no leading digits), the about text and the
      qualification list `['MBBS', specialization]`. */
  function DoctorPayload(form: map<Field, string>): (r: map<PayloadKey, JsValue>)
    requires HasAllFields(form)
    ensures r.Keys == DoctorKeys
    ensures r[SpecializationIdKey] == Str(ToLower(form[Specialization]))
    ensures r[QualificationKey] == Arr([Str("MBBS"), Str(form[Specialization])])
    ensures r[LicenseNumberKey] == Str(form[LicenseNumber]) && r[AboutKey] == Str(form[About])
    ensures r[ExperienceYearsKey] == if ParseInt(form[Experience]).Some? then Num(ParseInt(form[Experience]).value) else NaN
  {
    var experience := match ParseInt(form[Experience]) case Some(n) => Num(n) case None => NaN;
    map[
      SpecializationIdKey := Str(ToLower(form[Specialization])),
      LicenseNumberKey := Str(form[LicenseNumber]),
      ExperienceYearsKey := experience,
      AboutKey := Str(form[About]),
      QualificationKey := Arr([Str("MBBS"), Str(form[Specialization])])
    ]
  }

  /** The registration record: the common fields, plus the doctor's fields and fee for a doctor.
      The two key sets are disjoint, so nothing the doctor adds overwrites a common field. */
  function RegistrationData(form: map<Field, string>, userType: UserType): (r: Registration)
    requires HasAllFields(form)
    ensures userType == Patient ==> r.fields == CommonPayload(form) && r.consultationFee.None?
    ensures userType == Doctor ==>
      r.fields.Keys == CommonKeys + DoctorKeys && r.consultationFee == Some(ParseFloat(form[ConsultationFee]))
  {
    match userType
    case Doctor => Registration(CommonPayload(form) + DoctorPayload(form), Some(ParseFloat(form[ConsultationFee])))
    case Patient => Registration(CommonPayload(form), None)
  }

  /** A doctor's record carries every common field unchanged and every doctor field. */
  lemma DoctorRecordFields(form: map<Field, string>, k: PayloadKey)
    requires HasAllFields(form)
    ensures k in CommonKeys ==> RegistrationData(form, Doctor).fields[k] == CommonPayload(form)[k]
    ensures k in DoctorKeys ==> RegistrationData(form, Doctor).fields[k] == DoctorPayload(form)[k]
  {
    assert CommonKeys !! DoctorKeys;
  }

  /** A specialization typed in capitals is sent lower-cased as the id and verbatim in the
      qualification list. */
  lemma SpecializationSentTwice(form: map<Field, string>, userType: UserType)
    requires HasAllFields(form) && form[Specialization] == "Cardiology" && userType == Doctor
    ensures RegistrationData(form, userType).fields[SpecializationIdKey] == Str("cardiology")
    ensures RegistrationData(form, userType).fields[QualificationKey] == Arr([Str("MBBS"), Str("Cardiology")])
  {
    LowerCardiology(form[Specialization]);
    DoctorRecordFields(form, SpecializationIdKey);
    DoctorRecordFields(form, QualificationKey);
  }

  lemma LowerCardiology(s: string)
    requires s == "Cardiology"
    ensures ToLower(s) == "cardiology"
  {
  }

  class RegisterPage {
    var userType: UserType
    var formData: map<Field, string>
    var errors: map<Field, JsValue>
    var loading: bool
    var success: bool

    predicate Valid()
      reads this
    {
      HasAllFields(formData)
    }

    constructor ()
      ensures Valid() && userType == Patient && formData == EmptyForm
      ensures errors == map[] && !loading && !success
    {
      userType := Patient;
      formData := EmptyForm;
      errors := map[];
      loading := false;
      success := false;
    }

    /** The two buttons at the top of the form pick the account type; the form is kept. */
    method SetUserType(t: UserType)
      modifies this`userType
      ensures userType == t
    {
      userType := t;
    }

    /** `handleChange`: the named field takes the value and only that field's error is cleared. */
    method HandleChange(name: Field, value: string)
      requires !name.General?
      requires Valid()
      modifies this`formData, this`errors
      ensures Valid()
      ensures formData == Edited(old(formData), name, value)
      ensures errors == ClearFieldError(old(errors), name)
    {
      formData := formData[name := value];
      if name in errors && Truthy(errors[name]) {
        errors := errors[name := Str("")];
      }
    }

    /** `validate`: each rule adds its own entry; the doctor-only rules run only for a doctor. */
    method Validate() returns (newErrors: map<Field, JsValue>)
      requires Valid()
      ensures newErrors == ErrorsOf(formData, userType)
    {
      newErrors := AddContactErrors();
      newErrors := AddPasswordErrors(newErrors);
      newErrors := AddDoctorErrors(newErrors);
    }

    /** The name and email rules. */
    method AddContactErrors() returns (newErrors: map<Field, JsValue>)
      requires Valid()
      ensures newErrors == ContactStage(formData, userType, map[])
    {
      newErrors := map[];
      if formData[FirstName] == "" {
        newErrors := newErrors[FirstName := Str(FirstNameRequired)];
      }
      if formData[LastName] == "" {
        newErrors := newErrors[LastName := Str(LastNameRequired)];
      }
      var emailError := EmailError(formData[Email]);
      if emailError.Some? {
        newErrors := newErrors[Email := Str(emailError.value)];
      }
    }

    /** The password, confirmation and phone rules. */
    method AddPasswordErrors(errors0: map<Field, JsValue>) returns (newErrors: map<Field, JsValue>)
      requires Valid()
      ensures newErrors == PasswordStage(formData, userType, errors0)
    {
      newErrors := errors0;
      var passwordError := PasswordError(formData[Password]);
      if passwordError.Some? {
        newErrors := newErrors[Password := Str(passwordError.value)];
      }
      if formData[Password] != formData[ConfirmPassword] {
        newErrors := newErrors[ConfirmPassword := Str(PasswordsDiffer)];
      }
      if formData[Phone] == "" {
        newErrors := newErrors[Phone := Str(PhoneRequired)];
      }
    }

    /** The doctor-only rules of `validate`; for a patient they add nothing. */
    method AddDoctorErrors(errors0: map<Field, JsValue>) returns (newErrors: map<Field, JsValue>)
      requires Valid()
      ensures newErrors == DoctorStage(formData, userType, errors0)
    {
      newErrors := errors0;
      if userType == Doctor {
        if formData[Specialization] == "" {
          newErrors := newErrors[Specialization := Str(SpecializationRequired)];
        }
        if formData[LicenseNumber] == "" {
          newErrors := newErrors[LicenseNumber := Str(LicenseRequired)];
        }
        if formData[Experience] == "" {
          newErrors := newErrors[Experience := Str(ExperienceRequired)];
        }
        if formData[ConsultationFee] == "" {
          newErrors := newErrors[ConsultationFee := Str(FeeRequired)];
        }
      }
    }

    /** `handleSubmit`: with any validation error the errors are shown and nothing is sent; otherwise
        the registration record is sent, success is flagged on resolution, the server's message
        is shown on rejection, and loading ends. `sent` is the record handed to the service. */
    method HandleSubmit(outcome: ServiceOutcome) returns (sent: Option<Registration>)
      requires Valid()
      modifies this`errors, this`loading, this`success
      ensures Valid()
      ensures !Acceptable(formData, userType) ==>
        sent.None? && errors == ErrorsOf(formData, userType) && |errors| > 0
        && loading == old(loading) && success == old(success)
      ensures Acceptable(formData, userType) ==>
        sent == Some(RegistrationData(formData, userType)) && !loading
      ensures Acceptable(formData, userType) && outcome.Resolved? ==> success && errors == old(errors)
      ensures Acceptable(formData, userType) && outcome.Rejected? && !Nullish(outcome.error) ==>
        errors == map[General := ServerMessage(outcome.error, RegistrationFailedText).value] && success == old(success)
      ensures Acceptable(formData, userType) && outcome.Rejected? && Nullish(outcome.error) ==>
        errors == old(errors) && success == old(success)
    {
      var newErrors := Validate();
      NothingReportedIffAcceptable(formData, userType);
      if |newErrors| > 0 {
        errors := newErrors;
        return None;
      }
      loading := true;
      sent := Some(RegistrationData(formData, userType));
      match outcome {
        case Resolved(_) =>
          success := true;
        case Rejected(err) =>
          var message := ServerMessage(err, RegistrationFailedText);
          if message.Some? {
            errors := map[General := message.value];
          }
      }
      loading := false;
    }
  }
}
