/** The `doctors` slice of the Redux store: the fetched doctor list, the
    doctor being viewed, the search filters, and the loading and error flags.
    Each reducer assigns fields of the state in place; the class below keeps
    those fields and gives each reducer the narrowest frame it needs. */
module DoctorSlice {
  import opened Text
  import opened Js

  /** The filter record the slice starts with and `clearFilters` restores. */
  const InitialFilters: map<string, JsValue> := map[
    "specialization" := Str(""),
    "location" := Str(""),
    "availability" := Str(""),
    "rating" := Num(0),
    "maxFee" := Null
  ]

  /** `{ ...filters, ...payload }`: every key of the payload overwrites, every other key is kept. */
  function MergeFilters(filters: map<string, JsValue>, payload: JsValue): (r: map<string, JsValue>)
    ensures forall k :: k in r <==> k in filters || k in Spread(payload)
    ensures forall k :: k in Spread(payload) ==> r[k] == Spread(payload)[k]
    ensures forall k :: k in filters && k !in Spread(payload) ==> r[k] == filters[k]
  {
    filters + Spread(payload)
  }

  /** Merging the same payload a second time changes nothing. */
  lemma MergeIdempotent(filters: map<string, JsValue>, payload: JsValue)
    ensures MergeFilters(MergeFilters(filters, payload), payload) == MergeFilters(filters, payload)
  {
    var once := MergeFilters(filters, payload);
    var twice := MergeFilters(once, payload);
    assert forall k :: k in twice <==> k in once;
    assert forall k :: k in twice ==> twice[k] == once[k];
  }

  /** A payload with no own entries (null, undefined, a boolean, a number, an empty string or an
      empty array) leaves the filters as they were. */
  lemma MergeNonObject(filters: map<string, JsValue>, payload: JsValue)
    requires !payload.Obj? && !(payload.Arr? && payload.items != []) && !(payload.Str? && payload.s != "")
    ensures MergeFilters(filters, payload) == filters
  {
    assert forall k :: k in MergeFilters(filters, payload) <==> k in filters;
  }

  /** A string payload adds its characters under their indices and leaves every named filter
      alone, since a filter name is not a number. */
  lemma MergeString(filters: map<string, JsValue>, s: string)
    ensures forall i :: 0 <= i < |s| ==> MergeFilters(filters, Str(s))[NatToString(i)] == Str([s[i]])
    ensures forall k :: k in filters && !AllDigits(k) ==> MergeFilters(filters, Str(s))[k] == filters[k]
    ensures "0" in MergeFilters(filters, Str(s)) <==> "0" in filters || s != ""
  {
    if s != "" {
      assert NatToString(0) == "0";
    } else {
      assert Spread(Str(s)) == map[];
    }
  }

  /** The reset record holds exactly the five initial keys; in particular no `minExperience`. */
  lemma InitialFiltersKeys()
    ensures InitialFilters.Keys == {"specialization", "location", "availability", "rating", "maxFee"}
    ensures "minExperience" !in InitialFilters
  {
  }

  class DoctorStore {
    var doctors: JsValue
    var selectedDoctor: JsValue
    var filters: map<string, JsValue>
    var loading: bool
    var error: JsValue

    /** The initial state of the slice. */
    constructor ()
      ensures doctors == Arr([]) && selectedDoctor == Null && filters == InitialFilters
      ensures !loading && error == Null
    {
      doctors := Arr([]);
      selectedDoctor := Null;
      filters := InitialFilters;
      loading := false;
      error := Null;
    }

    /** `fetchDoctorsStart`: loading on, error cleared; list, filters and selection untouched. */
    method FetchDoctorsStart()
      modifies this`loading, this`error
      ensures loading && error == Null
    {
      loading := true;
      error := Null;
    }

    /** `fetchDoctorsSuccess`: loading off and the payload stored as the list; the error is not touched. */
    method FetchDoctorsSuccess(payload: JsValue)
      modifies this`loading, this`doctors
      ensures !loading && doctors == payload
    {
      loading := false;
      doctors := payload;
    }

    /** `fetchDoctorsFailure`: loading off and the payload stored as the error; the list is kept. */
    method FetchDoctorsFailure(payload: JsValue)
      modifies this`loading, this`error
      ensures !loading && error == payload
    {
      loading := false;
      error := payload;
    }

    /** `setSelectedDoctor`: only the selection changes. */
    method SetSelectedDoctor(payload: JsValue)
      modifies this`selectedDoctor
      ensures selectedDoctor == payload
    {
      selectedDoctor := payload;
    }

    /** `updateFilters`: a shallow merge of the payload over the current filters. */
    method UpdateFilters(payload: JsValue)
      modifies this`filters
      ensures filters == MergeFilters(old(filters), payload)
    {
      filters := filters + Spread(payload);
    }

    /** `clearFilters`: back to the initial record, dropping any other key. The new state does not
        depend on the old one, so clearing twice is clearing once. */
    method ClearFilters()
      modifies this`filters
      ensures filters == InitialFilters
    {
      filters := InitialFilters;
    }
  }

  /** A start followed by a success leaves no error, whatever the error was before. */
  method StartThenSucceed(store: DoctorStore, payload: JsValue)
    modifies store`loading, store`error, store`doctors
    ensures !store.loading && store.error == Null && store.doctors == payload
    ensures store.filters == old(store.filters) && store.selectedDoctor == old(store.selectedDoctor)
  {
    store.FetchDoctorsStart();
    store.FetchDoctorsSuccess(payload);
  }
}
