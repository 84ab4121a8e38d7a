/** The doctor profile page: fetching one doctor, the dotted-path accessor
    the page reads the profile through, the doctor id used for booking,
    the booking redirect, and the five-star rating row (the doctor list
    draws its cards' stars with the same routine). */
module DoctorDetails {
  import opened Text
  import opened Js
  import opened DoctorSlice

  // ------------------------------------------------------------- safeGet

  /** `keys.reduce((current, key) => current && current[key], v)`. */
  function Walk(v: JsValue, keys: seq<string>): JsValue
    decreases |keys|
  {
    if |keys| == 0 then v
    else Walk(if Truthy(v) then Member(v, keys[0]) else v, keys[1..])
  }

  /** One step of the walk. */
  lemma WalkStep(v: JsValue, key: string, rest: seq<string>)
    ensures Walk(v, [key] + rest) == Walk(if Truthy(v) then Member(v, key) else v, rest)
  {
    assert ([key] + rest)[1..] == rest;
  }

  /** Once the walk reaches a falsy value, that value is the result. */
  lemma {:induction false} FalsyStops(v: JsValue, keys: seq<string>)
    requires !Truthy(v)
    ensures Walk(v, keys) == v
    decreases |keys|
  {
    if |keys| > 0 {
      FalsyStops(v, keys[1..]);
    }
  }

  /** Walking a path in two parts is walking the first part, then the second from there. */
  lemma {:induction false} WalkAppend(v: JsValue, a: seq<string>, b: seq<string>)
    ensures Walk(v, a + b) == Walk(Walk(v, a), b)
    decreases |a|
  {
    if |a| > 0 {
      assert (a + b)[1..] == a[1..] + b;
      WalkAppend(if Truthy(v) then Member(v, a[0]) else v, a[1..], b);
    } else {
      assert a + b == b;
    }
  }

  /** A falsy value part-way along the path is the result of the whole walk. */
  lemma FalsyPrefix(v: JsValue, keys: seq<string>, k: nat)
    requires k <= |keys| && !Truthy(Walk(v, keys[..k]))
    ensures Walk(v, keys) == Walk(v, keys[..k])
  {
    assert keys == keys[..k] + keys[k..];
    WalkAppend(v, keys[..k], keys[k..]);
    FalsyStops(Walk(v, keys[..k]), keys[k..]);
  }

  /** `safeGet(obj, path, defaultValue)`: the walk along `path.split('.')`, replaced by the
      default only when it ends in undefined. (The `catch` never fires: reading a key of a
      truthy value does not throw.) */
  function SafeGet(obj: JsValue, path: string, default: JsValue): (r: JsValue)
    ensures Walk(obj, Split(path, '.')).Undefined? ==> r == default
    ensures !Walk(obj, Split(path, '.')).Undefined? ==> r == Walk(obj, Split(path, '.'))
  {
    var result := Walk(obj, Split(path, '.'));
    if result.Undefined? then default else result
  }

  const FirstNamePath: string := "user.profile.firstName"

  /** The path the page reads a doctor's first name through. */
  lemma FirstNamePathSplits()
    ensures Split(FirstNamePath, '.') == ["user", "profile", "firstName"]
  {
    assert FirstNamePath == "user" + ['.'] + "profile" + ['.'] + "firstName";
    SplitThree("user", "profile", "firstName", '.');
  }

  // The three lemmas below hold for `FirstNamePath`, which splits into these keys.

  /** A null `user` is returned as it is, not replaced by the default. */
  lemma NullUserReturned(m: map<string, JsValue>, path: string, default: JsValue)
    requires Split(path, '.') == ["user", "profile", "firstName"]
    requires "user" in m && m["user"] == Null
    ensures SafeGet(Obj(m), path, default) == Null
  {
    assert Member(Obj(m), "user") == Null;
    WalkStep(Obj(m), "user", ["profile", "firstName"]);
    FalsyStops(Null, ["profile", "firstName"]);
  }

  /** A present first name is returned, even the empty string or null; a missing or undefined one
      gives the default. */
  lemma FirstNameFound(profile: map<string, JsValue>, path: string, default: JsValue)
    requires Split(path, '.') == ["user", "profile", "firstName"]
    ensures var doctor := Obj(map["user" := Obj(map["profile" := Obj(profile)])]);
      SafeGet(doctor, path, default) == if Lookup(profile, "firstName").Undefined? then default else profile["firstName"]
  {
    var profileObj := Obj(profile);
    var user := Obj(map["profile" := profileObj]);
    var doctor := Obj(map["user" := user]);
    assert Member(doctor, "user") == user;
    assert Member(user, "profile") == profileObj;
    WalkStep(doctor, "user", ["profile", "firstName"]);
    WalkStep(user, "profile", ["firstName"]);
    WalkStep(profileObj, "firstName", []);
    assert ["user", "profile", "firstName"] == ["user"] + ["profile", "firstName"];
    assert ["profile", "firstName"] == ["profile"] + ["firstName"];
    assert ["firstName"] == ["firstName"] + [];
  }

  /** An empty profile object ends the walk in undefined, so the default is shown. */
  lemma MissingProfileGivesDefault(path: string, default: JsValue)
    requires Split(path, '.') == ["user", "profile", "firstName"]
    ensures SafeGet(Obj(map["user" := Obj(map[])]), path, default) == default
  {
    var user := Obj(map[]);
    var doctor := Obj(map["user" := user]);
    assert Member(doctor, "user") == user;
    assert Member(user, "profile") == Undefined;
    WalkStep(doctor, "user", ["profile", "firstName"]);
    WalkStep(user, "profile", ["firstName"]);
    FalsyStops(Undefined, ["firstName"]);
  }

  // ------------------------------------------------------------ booking

  /** `doctor?.id || doctor?.data?.id || id`, where `routeId` is the id in the page's URL. */
  function GetDoctorId(doctor: JsValue, routeId: string): (r: JsValue)
    ensures Truthy(OptGet(doctor, "id")) ==> r == OptGet(doctor, "id")
    ensures !Truthy(OptGet(doctor, "id")) && Truthy(OptGet(OptGet(doctor, "data"), "id")) ==>
      r == OptGet(OptGet(doctor, "data"), "id")
    ensures !Truthy(OptGet(doctor, "id")) && !Truthy(OptGet(OptGet(doctor, "data"), "id")) ==> r == Str(routeId)
  {
    Or(OptGet(doctor, "id"), Or(OptGet(OptGet(doctor, "data"), "id"), Str(routeId)))
  }

  /** Where a navigation goes and the `from` it carries in its state. */
  datatype Navigation = Navigation(path: string, from: Option<string>)

  /** `handleBookAppointment`: a signed-out visitor goes to the login page, remembering the
      profile page; a signed-in one goes to the booking page of the doctor's id. */
  function BookTarget(isAuthenticated: bool, routeId: string, doctor: JsValue): (n: Navigation)
    ensures !isAuthenticated ==> n == Navigation("/login", Some("/doctors/" + routeId))
    ensures isAuthenticated ==> n == Navigation("/book-appointment/" + TemplateText(GetDoctorId(doctor, routeId)), None)
  {
    if !isAuthenticated then Navigation("/login", Some("/doctors/" + routeId))
    else Navigation("/book-appointment/" + TemplateText(GetDoctorId(doctor, routeId)), None)
  }

  /** A signed-in visitor books the doctor's own id when it is a non-empty string or a non-zero
      number, the id under `data` when the record has none of its own, and the URL's id when the
      record has no id at any level. */
  lemma BookingUsesDoctorId(routeId: string, id: string, n: int, fields: map<string, JsValue>, inner: map<string, JsValue>)
    requires id != "" && n != 0
    ensures BookTarget(true, routeId, Obj(fields["id" := Str(id)])).path == "/book-appointment/" + id
    ensures BookTarget(true, routeId, Obj(fields["id" := Num(n)])).path == "/book-appointment/" + IntToString(n)
    ensures BookTarget(true, routeId, Obj(map["data" := Obj(inner["id" := Str(id)])])).path == "/book-appointment/" + id
    ensures "id" !in fields && "data" !in fields ==>
      BookTarget(true, routeId, Obj(fields)).path == "/book-appointment/" + routeId
  {
  }

  // --------------------------------------------------------------- fetch

  /** `response.data || response`: `None` is the TypeError a null or undefined response throws. */
  function UnwrapResponse(response: JsValue): (r: Option<JsValue>)
    ensures r.None? <==> Nullish(response)
    ensures r.Some? && Truthy(Member(response, "data")) ==> r.value == Member(response, "data")
    ensures r.Some? && !Truthy(Member(response, "data")) ==> r.value == response
  {
    if Nullish(response) then None else Some(Or(Member(response, "data"), response))
  }

  /** A wrapped and a bare doctor record load as the same doctor. */
  lemma WrappedAndBareAgree(doctor: JsValue)
    requires Truthy(doctor) && !doctor.Arr? && !doctor.Str?
    requires doctor.Obj? ==> "data" !in doctor.fields
    ensures UnwrapResponse(Obj(map["data" := doctor])) == UnwrapResponse(doctor) == Some(doctor)
  {
  }

  const DetailsErrorText: string := "Failed to load doctor details"

  /** `err.message || 'Failed to load doctor details'`. */
  function DetailsError(err: JsValue): (r: JsValue)
    requires !Nullish(err)
    ensures Truthy(Member(err, "message")) ==> r == Member(err, "message")
    ensures !Truthy(Member(err, "message")) ==> r == Str(DetailsErrorText)
    ensures Truthy(r)
  {
    Or(Member(err, "message"), Str(DetailsErrorText))
  }

  /** What the page draws. */
  datatype View = Loading | ErrorView(text: string) | NotFound | Profile

  function PageView(loading: bool, error: JsValue, doctor: JsValue): (v: View)
    ensures v == Loading <==> loading
    ensures v.ErrorView? <==> !loading && Truthy(error)
    ensures v == Profile <==> !loading && !Truthy(error) && Truthy(doctor)
  {
    if loading then Loading
    else if Truthy(error) then ErrorView(TemplateText(error))
    else if !Truthy(doctor) then NotFound
    else Profile
  }

  class DetailsPage {
    const store: DoctorStore
    var doctor: JsValue
    var loading: bool
    var error: JsValue

    constructor (store: DoctorStore)
      ensures this.store == store && doctor == Null && loading && error == Null
    {
      this.store := store;
      doctor := Null;
      loading := true;
      error := Null;
    }

    /** `fetchDoctorDetails`: a loaded doctor is stored on the page and as the store's selected
        doctor; a failure sets the error text, or the fallback text when it has no message; a null
        or undefined rejection throws out of the catch block, leaving the error as it was. Loading ends in every case, and a success
        does not clear an earlier error. */
    method FetchDoctorDetails(outcome: ServiceOutcome)
      modifies this`doctor, this`loading, this`error, store`selectedDoctor
      ensures !loading
      ensures outcome.Resolved? && UnwrapResponse(outcome.response).Some? ==>
        doctor == UnwrapResponse(outcome.response).value && store.selectedDoctor == doctor && error == old(error)
      ensures outcome.Resolved? && UnwrapResponse(outcome.response).None? ==>
        doctor == old(doctor) && error == DetailsError(ReadError(outcome.response, "data"))
      ensures outcome.Rejected? && !Nullish(outcome.error) ==>
        doctor == old(doctor) && error == DetailsError(outcome.error)
      ensures outcome.Rejected? && Nullish(outcome.error) ==> doctor == old(doctor) && error == old(error)
      ensures outcome.Rejected? || UnwrapResponse(outcome.response).None? ==>
        store.selectedDoctor == old(store.selectedDoctor)
    {
      loading := true;
      match outcome {
      case Resolved(response) =>
        if Nullish(response) {
          error := Or(Member(ReadError(response, "data"), "message"), Str(DetailsErrorText));
        } else {
          var doctorData := Or(Member(response, "data"), response);
          doctor := doctorData;
          store.SetSelectedDoctor(doctorData);
        }
      case Rejected(err) =>
        if !Nullish(err) {
          error := Or(Member(err, "message"), Str(DetailsErrorText));
        }
      }
      loading := false;
    }
  }

  /** A page that once failed keeps showing the error after a later successful fetch. */
  method RetryAfterError(page: DetailsPage, outcome: ServiceOutcome)
    requires Truthy(page.error)
    modifies page`doctor, page`loading, page`error, page.store`selectedDoctor
    ensures PageView(page.loading, page.error, page.doctor).ErrorView?
  {
    page.FetchDoctorDetails(outcome);
  }

  // -------------------------------------------------------------- stars

  datatype Star = Full | Half | Empty

  /** `rating % 1 >= 0.5`: the remainder keeps the sign of the rating, so a negative rating never
      has a half star. */
  predicate HasHalfStar(rating: real) {
    rating >= 0.0 && rating - rating.Floor as real >= 0.5
  }

  /** n copies of a star; none for n <= 0, as a `for` loop to n pushes none. */
  function Repeat(s: Star, n: int): (r: seq<Star>)
    ensures |r| == if n <= 0 then 0 else n
    ensures forall i :: 0 <= i < |r| ==> r[i] == s
    decreases n
  {
    if n <= 0 then [] else Repeat(s, n - 1) + [s]
  }

  /** The row `renderStars` builds: `floor(rating)` full stars, a half star when the fraction is
      at least one half, then empty stars up to five. */
  function Stars(rating: real): seq<Star> {
    var lit := Repeat(Full, rating.Floor) + (if HasHalfStar(rating) then [Half] else []);
    lit + Repeat(Empty, 5 - |lit|)
  }

  /** For a rating from 0 to 5 the row has five stars: the first `floor(rating)` are full, the next
      one is half exactly when the fraction is at least one half, and the rest are empty. */
  lemma StarsShape(rating: real)
    requires 0.0 <= rating <= 5.0
    ensures |Stars(rating)| == 5
    ensures forall i :: 0 <= i < 5 ==> (Stars(rating)[i] == Full <==> i < rating.Floor)
    ensures forall i :: 0 <= i < 5 ==> (Stars(rating)[i] == Half <==> i == rating.Floor && HasHalfStar(rating))
  {
    var full := Repeat(Full, rating.Floor);
    var lit := full + (if HasHalfStar(rating) then [Half] else []);
    assert HasHalfStar(rating) ==> rating.Floor <= 4;
    assert |lit| <= 5;
    assert forall i :: 0 <= i < |lit| ==> (lit[i] == Full <==> i < rating.Floor);
  }

  /** A rating above five draws more than five stars: 5.5 draws six. */
  lemma StarsOverflow()
    ensures |Stars(5.5)| == 6
  {
    assert (5.5).Floor == 5;
  }

  /** `renderStars(rating)`, pushing stars one at a time. */
  method RenderStars(rating: real) returns (stars: seq<Star>)
    ensures stars == Stars(rating)
  {
    stars := [];
    var fullStars := rating.Floor;
    var i := 0;
    while i < fullStars
      invariant 0 <= i && (fullStars > 0 ==> i <= fullStars) && (fullStars <= 0 ==> i == 0)
      invariant stars == Repeat(Full, i)
      decreases fullStars - i
    {
      stars := stars + [Full];
      i := i + 1;
    }
    if HasHalfStar(rating) {
      stars := stars + [Half];
    }
    var lit := stars;
    assert lit == Repeat(Full, rating.Floor) + (if HasHalfStar(rating) then [Half] else []);
    var emptyStars := 5 - |stars|;
    i := 0;
    while i < emptyStars
      invariant 0 <= i && (emptyStars > 0 ==> i <= emptyStars) && (emptyStars <= 0 ==> i == 0)
      invariant stars == lit + Repeat(Empty, i)
      decreases emptyStars - i
    {
      stars := stars + [Empty];
      i := i + 1;
    }
  }

  /** `doctor.averageRating || 4.5`: a missing or zero rating is shown as 4.5. */
  function ShownRating(averageRating: Option<real>): (r: real)
    ensures averageRating.Some? && averageRating.value != 0.0 ==> r == averageRating.value
    ensures averageRating.None? || averageRating == Some(0.0) ==> r == 4.5
  {
    if averageRating.Some? && averageRating.value != 0.0 then averageRating.value else 4.5
  }

  /** An unrated doctor is drawn with four full stars and a half star. */
  lemma UnratedShowsFourAndAHalf()
    ensures Stars(ShownRating(None)) == [Full, Full, Full, Full, Half]
  {
    assert (4.5).Floor == 4;
    assert HasHalfStar(4.5);
    assert Repeat(Full, 4) == [Full, Full, Full, Full];
  }
}
