/** The "Find a doctor" page: it turns the stored filters into the query
    sent to the doctor service, normalises the answer or classifies the
    failure into a message for the slice, toggles specialization choices,
    keeps the search box in step with the filters, and labels
    specializations for display. */
module DoctorList {
  import opened Text
  import opened Js
  import opened Seqs
  import opened DoctorSlice
  import FilterPanel

  // ------------------------------------------------------- specializations

  datatype Specialization = Specialization(value: string, name: string, count: nat)

  /** The specializations offered as checkbox options, with their display labels. */
  const Specializations: seq<Specialization> := [
    Specialization("cardiology", "Cardiology", 12),
    Specialization("dermatology", "Dermatology", 8),
    Specialization("neurology", "Neurology", 6),
    Specialization("orthopedics", "Orthopedics", 10),
    Specialization("pediatrics", "Pediatrics", 15),
    Specialization("psychiatry", "Psychiatry", 7)
  ]

  /** `specs.find(s => s.value === id)`: the first entry with that value. */
  function FindSpecialization(specs: seq<Specialization>, id: string): (r: Option<Specialization>)
    ensures r.Some? ==> r.value in specs && r.value.value == id
    ensures r.None? ==> forall s :: s in specs ==> s.value != id
  {
    if |specs| == 0 then None
    else if specs[0].value == id then Some(specs[0])
    else FindSpecialization(specs[1..], id)
  }

  /** `id.charAt(0).toUpperCase() + id.slice(1)` for a non-empty id. */
  function Capitalise(id: string): (r: string)
    requires id != ""
    ensures |r| == |id| && r[1..] == id[1..] && r[0] == UpperChar(id[0])
  {
    [UpperChar(id[0])] + id[1..]
  }

  /** `formatSpecialization`: the table's label for a known value; otherwise a non-empty string
      capitalised; "General Physician" for a falsy id; any other truthy value has no `charAt`
      and throws (`None`). */
  function FormatSpecialization(specId: JsValue): (r: Option<string>)
    ensures specId.Str? && FindSpecialization(Specializations, specId.s).Some? ==>
      r == Some(FindSpecialization(Specializations, specId.s).value.name)
    ensures !Truthy(specId) ==> r == Some("General Physician")
    ensures r.None? <==> Truthy(specId) && !specId.Str?
  {
    if specId.Str? && FindSpecialization(Specializations, specId.s).Some? then
      Some(FindSpecialization(Specializations, specId.s).value.name)
    else if !Truthy(specId) then Some("General Physician")
    else if specId.Str? then Some(Capitalise(specId.s))
    else None
  }

  /** Every label of the table is its value capitalised. */
  lemma TableLabelsCapitalise(i: int)
    requires 0 <= i < |Specializations|
    ensures Specializations[i].value != "" && Specializations[i].name == Capitalise(Specializations[i].value)
  {
    if i == 0 { assert "Cardiology" == [UpperChar('c')] + "ardiology"; }
    else if i == 1 { assert "Dermatology" == [UpperChar('d')] + "ermatology"; }
    else if i == 2 { assert "Neurology" == [UpperChar('n')] + "eurology"; }
    else if i == 3 { assert "Orthopedics" == [UpperChar('o')] + "rthopedics"; }
    else if i == 4 { assert "Pediatrics" == [UpperChar('p')] + "ediatrics"; }
    else { assert "Psychiatry" == [UpperChar('p')] + "sychiatry"; }
  }

  /** The table agrees with the fallback: every non-empty string is shown capitalised,
      whether or not it is one of the six known values. */
  lemma FormatIsCapitalise(x: string)
    requires x != ""
    ensures FormatSpecialization(Str(x)) == Some(Capitalise(x))
  {
    var found := FindSpecialization(Specializations, x);
    if found.Some? {
      var i :| 0 <= i < |Specializations| && Specializations[i] == found.value;
      TableLabelsCapitalise(i);
    }
  }

  /** Lower-casing a capitalised lower-case id gives the id back. */
  lemma CapitaliseLowerInverse(x: string)
    requires x != "" && ToLower(x) == x
    ensures ToLower(Capitalise(x)) == x
  {
    var r := Capitalise(x);
    assert LowerChar(x[0]) == x[0];
    forall k | 0 <= k < |x| ensures ToLower(r)[k] == x[k] {
      assert ToLower(x)[k] == LowerChar(x[k]);
    }
  }

  // --------------------------------------------------------------- query

  /** The query parameters the page can send. */
  datatype QueryParam =
    | SortByParam | SortOrderParam | SpecializationParam | MinExperienceParam
    | MaxFeeParam | MinRatingParam | SearchParam

  /** The name a parameter is sent under. */
  function ParamName(p: QueryParam): string {
    match p
    case SortByParam => "sortBy"
    case SortOrderParam => "sortOrder"
    case SpecializationParam => "specialization"
    case MinExperienceParam => "minExperience"
    case MaxFeeParam => "maxFee"
    case MinRatingParam => "minRating"
    case SearchParam => "search"
  }

  /** Distinct parameters are sent under distinct names, so a query keyed by parameter is a
      query keyed by name. */
  lemma ParamNamesDistinct(p: QueryParam, p': QueryParam)
    requires ParamName(p) == ParamName(p')
    ensures p == p'
  {
  }

  /** The sort keys for a UI sort option: four known options, nothing for any other value. */
  function SortParams(sortBy: JsValue): (r: map<QueryParam, JsValue>)
    ensures r == map[] || r.Keys == {SortByParam, SortOrderParam}
    ensures SortByParam in r <==>
      sortBy == Str("rating") || sortBy == Str("experience") || sortBy == Str("fee_asc") || sortBy == Str("fee_desc")
  {
    if StrictEquals(sortBy, Str("rating")) then
      map[SortByParam := Str("averageRating"), SortOrderParam := Str("desc")]
    else if StrictEquals(sortBy, Str("experience")) then
      map[SortByParam := Str("experienceYears"), SortOrderParam := Str("desc")]
    else if StrictEquals(sortBy, Str("fee_asc")) then
      map[SortByParam := Str("consultationFee"), SortOrderParam := Str("asc")]
    else if StrictEquals(sortBy, Str("fee_desc")) then
      map[SortByParam := Str("consultationFee"), SortOrderParam := Str("desc")]
    else map[]
  }

  /** The four options are told apart by the keys they send, and the two fee options differ
      only in the order. */
  lemma SortParamsDistinct(a: JsValue, b: JsValue)
    requires SortByParam in SortParams(a) && SortParams(a) == SortParams(b)
    ensures a == b
  {
  }

  /** The slice keeps no `sortBy`, so the page reads undefined and never sends sort keys. */
  lemma UnsetSortSendsNothing()
    ensures SortParams(Undefined) == map[]
  {
  }

  /** The specialization test: a truthy value whose `length` is positive. */
  predicate SpecializationSent(spec: JsValue) {
    Truthy(spec) && GreaterThan(Member(spec, "length"), 0)
  }

  /** The two `maxFee` branches together: below 5000, or exactly 5000. */
  predicate MaxFeeSent(fee: JsValue) {
    LessThan(fee, 5000) || StrictEquals(fee, Num(5000))
  }

  /** One conditional assignment `if (test) query[key] = value`. */
  function AddIf(q: map<QueryParam, JsValue>, test: bool, key: QueryParam, value: JsValue): map<QueryParam, JsValue> {
    if test then q[key := value] else q
  }

  /** The two `maxFee` branches assign the same key, so together they are one assignment under
      either test. */
  lemma AddIfEither(q: map<QueryParam, JsValue>, a: bool, b: bool, key: QueryParam, value: JsValue)
    ensures AddIf(AddIf(q, a, key, value), !a && b, key, value) == AddIf(q, a || b, key, value)
  {
  }

  /** Building the query throws exactly when a specialization value that is not an array passes the length test. */
  lemma QueryThrowsIff(filters: map<string, JsValue>, sortBy: JsValue)
    ensures QueryFor(filters, sortBy).None? <==>
      SpecializationSent(Lookup(filters, "specialization")) && !Lookup(filters, "specialization").Arr?
    ensures Lookup(filters, "specialization") == Str("") ==> QueryFor(filters, sortBy).Some?
  {
  }

  /** The query as the five conditional assignments leave it, with the tests and values given. */
  function Assigned(q0: map<QueryParam, JsValue>, tests: seq<bool>, values: seq<JsValue>): map<QueryParam, JsValue>
    requires |tests| == 5 && |values| == 5
  {
    var q1 := AddIf(q0, tests[0], SpecializationParam, values[0]);
    var q2 := AddIf(q1, tests[1], MinExperienceParam, values[1]);
    var q3 := AddIf(q2, tests[2], MaxFeeParam, values[2]);
    var q4 := AddIf(q3, tests[3], MinRatingParam, values[3]);
    AddIf(q4, tests[4], SearchParam, values[4])
  }

  /** The five criteria in assignment order. */
  const Criteria: seq<QueryParam> := [SpecializationParam, MinExperienceParam, MaxFeeParam, MinRatingParam, SearchParam]

  /** Starting from sort keys only, each criterion ends up present exactly when its test passed,
      with its value, and the sort keys stay as they were. */
  lemma AssignedFacts(q0: map<QueryParam, JsValue>, tests: seq<bool>, values: seq<JsValue>)
    requires |tests| == 5 && |values| == 5
    requires forall k :: k in q0 ==> k == SortByParam || k == SortOrderParam
    ensures var q := Assigned(q0, tests, values);
      && (forall k :: k in q0 ==> k in q && q[k] == q0[k])
      && (forall i :: 0 <= i < 5 ==> (Criteria[i] in q <==> tests[i]))
      && (forall i :: 0 <= i < 5 && tests[i] ==> q[Criteria[i]] == values[i])
  {
    forall k | k in q0
      ensures k in Assigned(q0, tests, values) && Assigned(q0, tests, values)[k] == q0[k]
    {
      AssignedKeepsSortKeys(q0, tests, values, k);
    }
    forall i | 0 <= i < 5
      ensures Criteria[i] in Assigned(q0, tests, values) <==> tests[i]
      ensures tests[i] ==> Assigned(q0, tests, values)[Criteria[i]] == values[i]
    {
      AssignedCriterion(q0, tests, values, i);
    }
  }

  /** A sort key is untouched by the five assignments. */
  lemma AssignedKeepsSortKeys(q0: map<QueryParam, JsValue>, tests: seq<bool>, values: seq<JsValue>, k: QueryParam)
    requires |tests| == 5 && |values| == 5
    requires k in q0 && (k == SortByParam || k == SortOrderParam)
    ensures k in Assigned(q0, tests, values) && Assigned(q0, tests, values)[k] == q0[k]
  {
  }

  /** Criterion i is present exactly when its test passed, carrying its value. */
  lemma AssignedCriterion(q0: map<QueryParam, JsValue>, tests: seq<bool>, values: seq<JsValue>, i: int)
    requires |tests| == 5 && |values| == 5 && 0 <= i < 5
    requires forall k :: k in q0 ==> k == SortByParam || k == SortOrderParam
    ensures Criteria[i] in Assigned(q0, tests, values) <==> tests[i]
    ensures tests[i] ==> Assigned(q0, tests, values)[Criteria[i]] == values[i]
  {
    assert Criteria[i] != SortByParam && Criteria[i] != SortOrderParam;
  }

  /** The tests of the five criteria, in assignment order. */
  function Tests(filters: map<string, JsValue>): (r: seq<bool>)
    ensures |r| == 5
  {
    [SpecializationSent(Lookup(filters, "specialization")), GreaterThan(Lookup(filters, "minExperience"), 0),
     MaxFeeSent(Lookup(filters, "maxFee")), GreaterThan(Lookup(filters, "rating"), 0),
     Truthy(Lookup(filters, "search"))]
  }

  /** The values the five criteria carry: the joined specialization list and the filters' own values. */
  function Values(filters: map<string, JsValue>): (r: seq<JsValue>)
    ensures |r| == 5
  {
    var spec := Lookup(filters, "specialization");
    [if spec.Arr? then Str(ArrayText(spec, spec.items)) else Undefined, Lookup(filters, "minExperience"),
     Lookup(filters, "maxFee"), Lookup(filters, "rating"), Lookup(filters, "search")]
  }

  /** The query sent for the given filters and sort option; `None` when building it throws
      (a selected specialization that has a length but no `join`, such as a non-empty string). */
  function QueryFor(filters: map<string, JsValue>, sortBy: JsValue): Option<map<QueryParam, JsValue>> {
    var spec := Lookup(filters, "specialization");
    if SpecializationSent(spec) && !spec.Arr? then None
    else Some(Assigned(SortParams(sortBy), Tests(filters), Values(filters)))
  }

  /** Which criteria the query holds and with what: the sort keys, and each filter exactly when
      its test passes, carrying the filter's own value (`rating` travels as `minRating`). */
  lemma QueryContents(filters: map<string, JsValue>, sortBy: JsValue)
    requires QueryFor(filters, sortBy).Some?
    ensures var q := QueryFor(filters, sortBy).value;
      && (forall k :: k in SortParams(sortBy) ==> k in q && q[k] == SortParams(sortBy)[k])
      && (SpecializationParam in q <==> SpecializationSent(Lookup(filters, "specialization")))
      && (MinExperienceParam in q <==> GreaterThan(Lookup(filters, "minExperience"), 0))
      && (MaxFeeParam in q <==> MaxFeeSent(Lookup(filters, "maxFee")))
      && (MinRatingParam in q <==> GreaterThan(Lookup(filters, "rating"), 0))
      && (SearchParam in q <==> Truthy(Lookup(filters, "search")))
      && (MinExperienceParam in q ==> q[MinExperienceParam] == Lookup(filters, "minExperience"))
      && (MaxFeeParam in q ==> q[MaxFeeParam] == Lookup(filters, "maxFee"))
      && (MinRatingParam in q ==> q[MinRatingParam] == Lookup(filters, "rating"))
      && (SearchParam in q ==> q[SearchParam] == Lookup(filters, "search"))
      && (SpecializationParam in q ==> var spec := Lookup(filters, "specialization");
            spec.Arr? && q[SpecializationParam] == Str(ArrayText(spec, spec.items)))
  {
    QueryForAssigned(filters, sortBy);
    AssignedFacts(SortParams(sortBy), Tests(filters), Values(filters));
    assert Criteria[1] == MinExperienceParam && Criteria[2] == MaxFeeParam;
    assert Criteria[3] == MinRatingParam && Criteria[4] == SearchParam;
  }

  /** Text of the strings of a list, in order. */
  function Texts(xs: seq<JsValue>): (r: seq<string>)
    requires forall x :: x in xs ==> x.Str?
    ensures |r| == |xs|
  {
    if |xs| == 0 then [] else [xs[0].s] + Texts(xs[1..])
  }

  /** A list of strings is sent joined with commas, in list order. */
  lemma {:induction false} SpecializationJoined(owner: JsValue, xs: seq<JsValue>)
    requires owner.Arr? && forall x :: x in xs ==> x in owner.items && x.Str?
    ensures ArrayText(owner, xs) == Join(Texts(xs), ',')
    decreases |xs|
  {
    if |xs| > 1 {
      assert xs[0] in xs;
      assert forall x :: x in xs[1..] ==> x in xs;
      SpecializationJoined(owner, xs[1..]);
      var t := Texts(xs);
      assert t[0] == xs[0].s && t[1..] == Texts(xs[1..]);
      assert ArrayText(owner, xs) == xs[0].s + "," + ArrayText(owner, xs[1..]);
      assert Join(t, ',') == t[0] + [','] + Join(t[1..], ',');
    } else if |xs| == 1 {
      assert xs[0] in xs;
    }
  }

  /** A numeric fee is sent exactly when it is at most 5000; null counts as 0 and is sent;
      an unset or NaN fee is not. */
  lemma MaxFeeRule(n: int)
    ensures MaxFeeSent(Num(n)) <==> n <= 5000
    ensures MaxFeeSent(Null)
    ensures !MaxFeeSent(Undefined) && !MaxFeeSent(NaN)
  {
  }

  /** The filters the slice starts with (and `clearFilters` restores) send exactly `maxFee: null`. */
  lemma InitialQuery()
    ensures QueryFor(InitialFilters, Undefined) == Some(map[MaxFeeParam := Null])
  {
    MaxFeeRule(0);
    assert Lookup(InitialFilters, "specialization") == Str("");
    assert Lookup(InitialFilters, "minExperience") == Undefined;
    assert Lookup(InitialFilters, "maxFee") == Null;
    assert Lookup(InitialFilters, "rating") == Num(0);
    assert Lookup(InitialFilters, "search") == Undefined;
  }

  /** Builds the query for `fetchDoctors` key by key. */
  method BuildQuery(filters: map<string, JsValue>, sortBy: JsValue) returns (query: Option<map<QueryParam, JsValue>>)
    ensures query == QueryFor(filters, sortBy)
  {
    var spec := Lookup(filters, "specialization");
    if SpecializationSent(spec) && !spec.Arr? {
      return None;
    }
    var q := SortParams(sortBy);
    var joined := if spec.Arr? then Str(ArrayText(spec, spec.items)) else Undefined;
    q := SetIf(q, SpecializationSent(spec), SpecializationParam, joined);
    var experience := Lookup(filters, "minExperience");
    q := SetIf(q, GreaterThan(experience, 0), MinExperienceParam, experience);
    ghost var q2 := q;
    var fee := Lookup(filters, "maxFee");
    q := SetIf(q, LessThan(fee, 5000), MaxFeeParam, fee);
    q := SetIf(q, !LessThan(fee, 5000) && StrictEquals(fee, Num(5000)), MaxFeeParam, fee);
    AddIfEither(q2, LessThan(fee, 5000), StrictEquals(fee, Num(5000)), MaxFeeParam, fee);
    var rating := Lookup(filters, "rating");
    q := SetIf(q, GreaterThan(rating, 0), MinRatingParam, rating);
    var search := Lookup(filters, "search");
    q := SetIf(q, Truthy(search), SearchParam, search);
    QueryForAssigned(filters, sortBy);
    return Some(q);
  }

  /** The query for filters whose specialization does not throw, written out as the five assignments. */
  lemma QueryForAssigned(filters: map<string, JsValue>, sortBy: JsValue)
    requires !(SpecializationSent(Lookup(filters, "specialization")) && !Lookup(filters, "specialization").Arr?)
    ensures var spec := Lookup(filters, "specialization");
      var experience, fee := Lookup(filters, "minExperience"), Lookup(filters, "maxFee");
      var rating, search := Lookup(filters, "rating"), Lookup(filters, "search");
      QueryFor(filters, sortBy) == Some(
        AddIf(AddIf(AddIf(AddIf(AddIf(SortParams(sortBy),
          SpecializationSent(spec), SpecializationParam, if spec.Arr? then Str(ArrayText(spec, spec.items)) else Undefined),
          GreaterThan(experience, 0), MinExperienceParam, experience),
          MaxFeeSent(fee), MaxFeeParam, fee),
          GreaterThan(rating, 0), MinRatingParam, rating),
          Truthy(search), SearchParam, search))
  {
    var t, v := Tests(filters), Values(filters);
    assert t[0] == SpecializationSent(Lookup(filters, "specialization"));
  }

  /** `if (test) { queryParams[key] = value; }` */
  method SetIf(q: map<QueryParam, JsValue>, test: bool, key: QueryParam, value: JsValue) returns (r: map<QueryParam, JsValue>)
    ensures r == AddIf(q, test, key, value)
  {
    r := q;
    if test {
      r := r[key := value];
    }
  }

  // ------------------------------------------------------------ response

  /** `response.data || response`, then the doctors when they are an array (else []) and
      `pagination.total`, falling back to the number of doctors when that is falsy.
      `None` is the TypeError of reading `data` from a null or undefined response. */
  function NormaliseResponse(response: JsValue): (r: Option<JsValue>)
    ensures r.None? <==> Nullish(response)
    ensures r.Some? ==> r.value.Obj? && r.value.fields.Keys == {"doctors", "total"}
    ensures r.Some? ==> r.value.fields["doctors"].Arr?
  {
    if Nullish(response) then None
    else
      var data := Or(Member(response, "data"), response);
      var listed := Member(data, "doctors");
      var doctors := if listed.Arr? then listed else Arr([]);
      var total := Or(OptGet(Member(data, "pagination"), "total"), Num(|doctors.items|));
      Some(Obj(map["doctors" := doctors, "total" := total]))
  }

  /** The total is the server's figure when it is truthy and the list's length otherwise. */
  lemma NormaliseTotal(response: JsValue, body: map<string, JsValue>, doctors: seq<JsValue>, total: JsValue)
    requires response == Obj(map["data" := Obj(body)])
    requires "doctors" in body && body["doctors"] == Arr(doctors)
    requires "pagination" in body && body["pagination"] == Obj(map["total" := total])
    ensures NormaliseResponse(response).Some?
    ensures NormaliseResponse(response).value.fields["doctors"] == Arr(doctors)
    ensures Truthy(total) ==> NormaliseResponse(response).value.fields["total"] == total
    ensures !Truthy(total) ==> NormaliseResponse(response).value.fields["total"] == Num(|doctors|)
  {
  }

  /** The fallbacks of a bare body: doctors that are missing or not a list read as `[]`, a list
      passes through, and without `pagination` the total is the number of doctors. */
  lemma NormaliseFallbacks(body: map<string, JsValue>)
    requires "data" !in body
    ensures NormaliseResponse(Obj(body)).Some?
    ensures var n := NormaliseResponse(Obj(body)).value.fields;
      && (("doctors" !in body || !body["doctors"].Arr?) ==> n["doctors"] == Arr([]))
      && ("doctors" in body && body["doctors"].Arr? ==> n["doctors"] == body["doctors"])
      && ("pagination" !in body ==> n["total"] == Num(|n["doctors"].items|))
  {
  }

  /** A body wrapped in `data` and the same body returned bare are read alike. */
  lemma WrappedAndBareAgree(body: map<string, JsValue>)
    requires "data" !in body
    ensures NormaliseResponse(Obj(map["data" := Obj(body)])) == NormaliseResponse(Obj(body))
  {
  }

  // --------------------------------------------------------------- errors

  const FailurePrefix := "Failed to load doctors. "
  const ServerErrorText := "The server encountered an error. Please try again later or contact support."
  const NotFoundText := "Doctor service not found. Please check your connection."
  const UnauthorizedText := "Please log in to view doctors."
  const RetryText := "Please try again."
  const UnreachableText := "Unable to reach the server. Please check your internet connection."
  const UnexpectedText := "An unexpected error occurred."

  /** The message the catch block builds; `None` when the caught value is null or undefined,
      where reading `error.response` throws again. */
  function ErrorMessage(error: JsValue): (r: Option<string>)
    ensures r.None? <==> Nullish(error)
    ensures r.Some? ==> FailurePrefix <= r.value
  {
    if Nullish(error) then None
    else
      var response := Member(error, "response");
      if Truthy(response) then
        var status := Member(response, "status");
        if StrictEquals(status, Num(500)) then Some(FailurePrefix + ServerErrorText)
        else if StrictEquals(status, Num(404)) then Some(FailurePrefix + NotFoundText)
        else if StrictEquals(status, Num(401)) then Some(FailurePrefix + UnauthorizedText)
        else Some(FailurePrefix + TemplateText(Or(OptGet(Member(response, "data"), "message"), Str(RetryText))))
      else if Truthy(Member(error, "request")) then Some(FailurePrefix + UnreachableText)
      else Some(FailurePrefix + TemplateText(Or(Member(error, "message"), Str(UnexpectedText))))
  }

  /** An error value carrying a server response with the given status and body. */
  function ResponseError(status: JsValue, data: JsValue): JsValue {
    Obj(map["response" := Obj(map["status" := status, "data" := data])])
  }

  /** The response, status and body an error built by `ResponseError` exposes. */
  lemma ResponseErrorFields(status: JsValue, data: JsValue)
    ensures var response := Member(ResponseError(status, data), "response");
      Truthy(response) && Member(response, "status") == status && Member(response, "data") == data
  {
  }

  /** Statuses 500, 404 and 401 get fixed texts, whatever the body says. */
  lemma ErrorMessageFixedStatus(data: JsValue)
    ensures ErrorMessage(ResponseError(Num(500), data)) == Some(FailurePrefix + ServerErrorText)
    ensures ErrorMessage(ResponseError(Num(404), data)) == Some(FailurePrefix + NotFoundText)
    ensures ErrorMessage(ResponseError(Num(401), data)) == Some(FailurePrefix + UnauthorizedText)
  {
    ResponseErrorFields(Num(500), data);
    ResponseErrorFields(Num(404), data);
    ResponseErrorFields(Num(401), data);
  }

  /** Any other status passes the server's message through, or asks to try again when the
      response has no body. */
  lemma ErrorMessageOtherStatus(s: int, m: string, data: JsValue)
    requires s != 500 && s != 404 && s != 401
    ensures m != "" ==>
      ErrorMessage(ResponseError(Num(s), Obj(map["message" := Str(m)]))) == Some(FailurePrefix + m)
    ensures Nullish(data) ==> ErrorMessage(ResponseError(Num(s), data)) == Some(FailurePrefix + RetryText)
  {
    ResponseErrorFields(Num(s), Obj(map["message" := Str(m)]));
    ResponseErrorFields(Num(s), data);
  }

  /** With no response: a request that went out means the server was unreachable; otherwise the
      error's own message is used, or the generic text when it has none. */
  lemma ErrorMessageWithoutResponse(request: JsValue, message: string)
    requires Truthy(request)
    ensures ErrorMessage(Obj(map["request" := request])) == Some(FailurePrefix + UnreachableText)
    ensures message != "" ==> ErrorMessage(Obj(map["message" := Str(message)])) == Some(FailurePrefix + message)
    ensures ErrorMessage(Obj(map[])) == Some(FailurePrefix + UnexpectedText)
  {
  }

  // ------------------------------------------------------ specialization

  /** `currentSelected.includes(v) ? currentSelected.filter(x => x !== v) : [...currentSelected, v]`. */
  function ToggleSelection(xs: seq<JsValue>, v: JsValue): seq<JsValue> {
    if v in xs then Filter(xs, x => !StrictEquals(x, v)) else xs + [v]
  }

  /** Toggling flips the value's membership and leaves every other value's membership alone. */
  lemma ToggleMembership(xs: seq<JsValue>, v: JsValue)
    requires !v.NaN?
    ensures v in ToggleSelection(xs, v) <==> v !in xs
    ensures forall x :: x != v ==> (x in ToggleSelection(xs, v) <==> x in xs)
  {
  }

  /** Toggling an absent value twice gives back the list exactly. */
  lemma ToggleAbsentTwice(xs: seq<JsValue>, v: JsValue)
    requires v !in xs && !v.NaN?
    ensures ToggleSelection(ToggleSelection(xs, v), v) == xs
  {
    var p := x => !StrictEquals(x, v);
    FilterAppend(xs, [v], p);
    FilterAll(xs, p);
    assert Filter([v], p) == [];
  }

  /** Toggling a present value twice keeps the list's values but moves that value to the end. */
  lemma TogglePresentTwice(xs: seq<JsValue>, v: JsValue)
    requires v in xs && !v.NaN?
    ensures ToggleSelection(ToggleSelection(xs, v), v) == Filter(xs, x => !StrictEquals(x, v)) + [v]
  {
  }

  /** The specialization branch of `handleFilterChange` on the stored value `current`:
      `current || []`, then the toggle. A non-empty string is spread into its characters when the
      value is not in it, and throws (`None`: strings have no `filter`) when it is; any other
      truthy non-array throws (`None`: no `includes`). */
  function SpecializationUpdate(current: JsValue, v: JsValue): (r: Option<JsValue>)
    ensures current.Arr? ==> r == Some(Arr(ToggleSelection(current.items, v)))
    ensures !Truthy(current) ==> r == Some(Arr([v]))
    ensures r.Some? ==> r.value.Arr?
  {
    assert ToggleSelection([], v) == [v];
    match Or(current, Arr([]))
    case Arr(xs) => Some(Arr(ToggleSelection(xs, v)))
    case Str(s) =>
      if Includes(s, TemplateText(v)) then None
      else Some(Arr(Characters(s) + [v]))
    case _ => None
  }

  // --------------------------------------------------------------- panel

  /** The filter panel's configuration built from the stored filters. */
  function FilterConfig(filters: map<string, JsValue>): (r: seq<FilterPanel.FilterSpec>)
    ensures |r| == 2 && r[0].kind == "checkbox" && r[1].kind == "range"
    ensures r[0].selected == Lookup(filters, "specialization") && r[1].selected == Lookup(filters, "minExperience")
  {
    [
      FilterPanel.FilterSpec("specialization", "checkbox",
        seq(|Specializations|, i requires 0 <= i < |Specializations| => Str(Specializations[i].value)),
        Lookup(filters, "specialization"), Undefined, Undefined, None),
      FilterPanel.FilterSpec("minExperience", "range", [],
        Lookup(filters, "minExperience"), Num(0), Num(30), Some(" years"))
    ]
  }

  /** With the initial filters the panel shows no "Clear All" and the experience slider reads
      "0 years"; choosing one specialization makes the panel active. */
  lemma PanelAtStart(v: JsValue)
    ensures !FilterPanel.HasActiveFilters(FilterConfig(InitialFilters))
    ensures FilterPanel.RangeLabels(FilterConfig(InitialFilters)[1]).1 == "0 years"
    ensures FilterPanel.HasActiveFilters(FilterConfig(InitialFilters["specialization" := Arr([v])]))
  {
    var c := FilterConfig(InitialFilters);
    assert !FilterPanel.IsActive(c[0]) && !FilterPanel.IsActive(c[1]);
    assert TemplateText(Num(0)) == "0";
    var d := FilterConfig(InitialFilters["specialization" := Arr([v])]);
    assert FilterPanel.IsActive(d[0]);
  }

  // ---------------------------------------------------------------- page

  /** How one `fetchDoctors` run ends: a success payload, a failure message, or a throw inside
      the catch block that leaves the slice loading. */
  datatype FetchEffect = Loaded(payload: JsValue) | Failed(message: string) | Stuck

  /** The outcome of `fetchDoctors` for the stored filters and what the service does. */
  function FetchEffectOf(filters: map<string, JsValue>, outcome: ServiceOutcome): (e: FetchEffect)
    ensures e.Failed? ==> FailurePrefix <= e.message
    ensures e.Loaded? ==> e.payload.Obj? && "doctors" in e.payload.fields && e.payload.fields["doctors"].Arr?
    ensures e.Stuck? <==> QueryFor(filters, Undefined).Some? && outcome.Rejected? && Nullish(outcome.error)
  {
    if QueryFor(filters, Undefined).None? then
      Failed(ErrorMessage(TypeError(JoinFailure)).value)
    else OutcomeEffect(outcome)
  }

  /** The message of the TypeError thrown when `join` is called on a value without it. */
  const JoinFailure: string := "filters.specialization.join is not a function"

  /** The outcome of `fetchDoctors` once the query was built. */
  function OutcomeEffect(outcome: ServiceOutcome): (e: FetchEffect)
    ensures e.Failed? ==> FailurePrefix <= e.message
    ensures e.Stuck? <==> outcome.Rejected? && Nullish(outcome.error)
  {
    match outcome
    case Resolved(response) =>
      (match NormaliseResponse(response)
       case Some(payload) => Loaded(payload)
       case None => Failed(ErrorMessage(ReadError(response, "data")).value))
    case Rejected(error) =>
      (match ErrorMessage(error)
       case Some(message) => Failed(message)
       case None => Stuck)
  }

  /** A search typed into the box reaches the next query exactly when it is non-empty. */
  lemma SearchReachesQuery(filters: map<string, JsValue>, text: string)
    requires QueryFor(filters, Undefined).Some?
    ensures var f := MergeFilters(filters, Obj(map["search" := Str(text)]));
      QueryFor(f, Undefined).Some?
      && (SearchParam in QueryFor(f, Undefined).value <==> text != "")
      && (text != "" ==> QueryFor(f, Undefined).value[SearchParam] == Str(text))
  {
    var f := MergeFilters(filters, Obj(map["search" := Str(text)]));
    assert Lookup(f, "specialization") == Lookup(filters, "specialization");
    assert Lookup(f, "search") == Str(text);
    QueryContents(f, Undefined);
  }

  class DoctorListPage {
    const store: DoctorStore
    var searchQuery: JsValue

    /** The page reads the store and starts the search box from `filters.search || ''`. */
    constructor (store: DoctorStore)
      ensures this.store == store
      ensures searchQuery == Or(Lookup(store.filters, "search"), Str(""))
    {
      this.store := store;
      searchQuery := Or(Lookup(store.filters, "search"), Str(""));
    }

    /** The effect that copies `filters.search || ''` into the search box. */
    method SyncSearchQuery()
      modifies this`searchQuery
      ensures searchQuery == Or(Lookup(store.filters, "search"), Str(""))
    {
      searchQuery := Or(Lookup(store.filters, "search"), Str(""));
    }

    /** `handleSearch`: the box's text becomes the `search` filter. */
    method HandleSearch()
      modifies store`filters
      ensures store.filters == old(store.filters)["search" := searchQuery]
    {
      store.UpdateFilters(Obj(map["search" := searchQuery]));
      assert Spread(Obj(map["search" := searchQuery])) == map["search" := searchQuery];
    }

    /** `handleSearchChange`: the box and the `search` filter both take the typed text. */
    method HandleSearchChange(value: string)
      modifies this`searchQuery, store`filters
      ensures searchQuery == Str(value)
      ensures store.filters == old(store.filters)["search" := Str(value)]
    {
      searchQuery := Str(value);
      store.UpdateFilters(Obj(map["search" := Str(value)]));
    }

    /** `handleFilterChange`: the specialization list is toggled, any other filter id takes the
        value outright; `threw` reports the TypeError of the specialization branch, which leaves
        the filters as they were. */
    method HandleFilterChange(filterId: string, value: JsValue) returns (threw: bool)
      modifies store`filters
      ensures filterId == "specialization" ==>
        var update := SpecializationUpdate(Lookup(old(store.filters), "specialization"), value);
        (threw <==> update.None?)
        && store.filters == (if update.Some? then old(store.filters)["specialization" := update.value] else old(store.filters))
      ensures filterId != "specialization" ==> !threw && store.filters == old(store.filters)[filterId := value]
    {
      if filterId == "specialization" {
        var update := SpecializationUpdate(Lookup(store.filters, "specialization"), value);
        if update.None? {
          return true;
        }
        store.UpdateFilters(Obj(map["specialization" := update.value]));
      } else {
        store.UpdateFilters(Obj(map[filterId := value]));
      }
      return false;
    }

    /** `handleClearFilters`: the slice's filters are reset and the search box emptied. */
    method HandleClearFilters()
      modifies store`filters, this`searchQuery
      ensures store.filters == InitialFilters && searchQuery == Str("")
    {
      store.ClearFilters();
      searchQuery := Str("");
    }

    /** `fetchDoctors`: start, build the query (the slice has no sort option, so it is undefined),
        call the service, then record the payload or the failure message. */
    method FetchDoctors(outcome: ServiceOutcome) returns (query: Option<map<QueryParam, JsValue>>)
      modifies store`loading, store`error, store`doctors
      ensures query == QueryFor(store.filters, Undefined)
      ensures store.filters == old(store.filters) && store.selectedDoctor == old(store.selectedDoctor)
      ensures match FetchEffectOf(store.filters, outcome)
        case Loaded(payload) => !store.loading && store.error == Null && store.doctors == payload
        case Failed(message) => !store.loading && store.error == Str(message) && store.doctors == old(store.doctors)
        case Stuck => store.loading && store.error == Null && store.doctors == old(store.doctors)
    {
      store.FetchDoctorsStart();
      query := BuildQuery(store.filters, Undefined);
      if query.None? {
        var message := ErrorMessage(TypeError(JoinFailure));
        store.FetchDoctorsFailure(Str(message.value));
        return;
      }
      Settle(outcome);
    }

    /** The `try` block after the request and the `catch` block: the slice ends loaded or failed,
        or stays loading when the rejection carries no error value. */
    method Settle(outcome: ServiceOutcome)
      requires store.loading && store.error == Null
      modifies store`loading, store`error, store`doctors
      ensures match OutcomeEffect(outcome)
        case Loaded(payload) => !store.loading && store.error == Null && store.doctors == payload
        case Failed(message) => !store.loading && store.error == Str(message) && store.doctors == old(store.doctors)
        case Stuck => store.loading && store.error == Null && store.doctors == old(store.doctors)
    {
      match outcome {
        case Resolved(response) =>
          var payload := NormaliseResponse(response);
          if payload.Some? {
            store.FetchDoctorsSuccess(payload.value);
          } else {
            var message := ErrorMessage(ReadError(response, "data"));
            store.FetchDoctorsFailure(Str(message.value));
          }
        case Rejected(error) =>
          var message := ErrorMessage(error);
          if message.Some? {
            store.FetchDoctorsFailure(Str(message.value));
          }
      }
    }
  }

  /** Clearing the filters and fetching again sends exactly `maxFee: null`. */
  method ClearThenFetch(page: DoctorListPage, outcome: ServiceOutcome) returns (query: Option<map<QueryParam, JsValue>>)
    modifies page.store`filters, page`searchQuery, page.store`loading, page.store`error, page.store`doctors
    ensures query == Some(map[MaxFeeParam := Null])
    ensures page.searchQuery == Str("")
  {
    page.HandleClearFilters();
    query := page.FetchDoctors(outcome);
    InitialQuery();
  }
}
