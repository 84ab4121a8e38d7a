/** The patient's appointment list: three tabs (upcoming, past, cancelled)
    with their counts, a case-insensitive search over the doctor's name and
    specialization, a status badge per card and a Cancel button on the
    upcoming tab. The filtering runs as an effect whenever the list, the tab
    or the search text changes; `now` is the instant the effect runs at. */
module PatientAppointments {
  import opened Text
  import opened Js
  import opened Seqs
  import opened Appointments

  // ---------------------------------------------------------------- tabs

  /** The upcoming tab: dated now or later and not cancelled. */
  predicate Upcoming(a: Appointment, now: int) {
    OnOrAfter(a, now) && a.status != Str("cancelled")
  }

  /** The past tab: dated before now, or completed whatever its date. */
  predicate Past(a: Appointment, now: int) {
    Before(a, now) || a.status == Str("completed")
  }

  /** The cancelled tab. */
  predicate Cancelled(a: Appointment) {
    a.status == Str("cancelled")
  }

  predicate IsTab(tab: string) {
    tab == "upcoming" || tab == "past" || tab == "cancelled"
  }

  /** The test the named tab filters by; a tab with any other name filters nothing. */
  predicate InTab(tab: string, a: Appointment, now: int) {
    if tab == "upcoming" then Upcoming(a, now)
    else if tab == "past" then Past(a, now)
    else if tab == "cancelled" then Cancelled(a)
    else true
  }

  function TabTest(tab: string, now: int): Appointment -> bool {
    a => InTab(tab, a, now)
  }

  /** The list after the tab step. */
  function ByTab(apps: seq<Appointment>, tab: string, now: int): seq<Appointment> {
    if IsTab(tab) then Filter(apps, TabTest(tab, now)) else apps
  }

  // -------------------------------------------------------------- search

  function FirstName(a: Appointment): JsValue {
    if a.doctor.Some? then a.doctor.value.firstName else Undefined
  }

  function LastName(a: Appointment): JsValue {
    if a.doctor.Some? then a.doctor.value.lastName else Undefined
  }

  /** `${doctor?.firstName} ${doctor?.lastName}` in lower case; a missing doctor reads "undefined undefined". */
  function DoctorName(a: Appointment): string {
    ToLower(TemplateText(FirstName(a)) + " " + TemplateText(LastName(a)))
  }

  /** `doctor?.specialization?.toLowerCase() || ''`. */
  function SpecializationText(a: Appointment): string {
    if a.doctor.Some? && a.doctor.value.specialization.Some? then ToLower(a.doctor.value.specialization.value) else ""
  }

  /** The lowered query occurs in the lowered name or the lowered specialization. */
  predicate MatchesSearch(a: Appointment, query: string) {
    Includes(DoctorName(a), ToLower(query)) || Includes(SpecializationText(a), ToLower(query))
  }

  function SearchTest(query: string): Appointment -> bool {
    a => MatchesSearch(a, query)
  }

  /** The list `filterAppointments` produces: the tab step, then the search step when the query is not empty. */
  function Visible(apps: seq<Appointment>, tab: string, query: string, now: int): seq<Appointment> {
    var byTab := ByTab(apps, tab, now);
    if query != "" then Filter(byTab, SearchTest(query)) else byTab
  }

  /** An appointment is shown exactly when it is in the list, passes the tab's test and, for a
      non-empty query, matches the search. */
  lemma VisibleMembers(apps: seq<Appointment>, tab: string, query: string, now: int)
    ensures forall a :: a in Visible(apps, tab, query, now) <==>
      a in apps && InTab(tab, a, now) && (query == "" || MatchesSearch(a, query))
  {
  }

  /** The shown list keeps the order of the fetched list. */
  lemma VisibleInOrder(apps: seq<Appointment>, tab: string, query: string, now: int)
    ensures IsSubsequence(Visible(apps, tab, query, now), apps)
  {
    if IsTab(tab) && query != "" {
      var both := (a: Appointment) => InTab(tab, a, now) && MatchesSearch(a, query);
      FilterFilter(apps, TabTest(tab, now), SearchTest(query), both);
      FilterIsSubsequence(apps, both);
    } else if IsTab(tab) {
      FilterIsSubsequence(apps, TabTest(tab, now));
    } else if query != "" {
      FilterIsSubsequence(apps, SearchTest(query));
    } else {
      FilterAll(apps, (a: Appointment) => true);
      FilterIsSubsequence(apps, (a: Appointment) => true);
    }
  }

  /** An empty search on a tab with another name shows the whole list. */
  lemma NoFilterShowsAll(apps: seq<Appointment>, tab: string, now: int)
    requires !IsTab(tab)
    ensures Visible(apps, tab, "", now) == apps
  {
  }

  /** Searching is case-insensitive in the query. */
  lemma SearchIgnoresQueryCase(a: Appointment, query: string)
    ensures MatchesSearch(a, query) == MatchesSearch(a, ToLower(query))
  {
    ToLowerIdempotent(query);
  }

  /** Typing a doctor's full name finds their appointments. */
  lemma FullNameFinds(a: Appointment, first: string, last: string)
    requires a.doctor.Some? && a.doctor.value.firstName == Str(first) && a.doctor.value.lastName == Str(last)
    ensures MatchesSearch(a, first + " " + last)
  {
    assert DoctorName(a) == ToLower(first + " " + last);
    assert OccursAt(DoctorName(a), ToLower(first + " " + last), 0);
  }

  // ------------------------------------------------------ tab overlaps

  /** The tabs do not partition the list: a completed appointment dated now or later is on both
      the upcoming and the past tab. */
  lemma CompletedFutureOnTwoTabs(a: Appointment, now: int)
    requires OnOrAfter(a, now) && a.status == Str("completed")
    ensures Visible([a], "upcoming", "", now) == [a]
    ensures Visible([a], "past", "", now) == [a]
  {
    assert Filter([a], TabTest("upcoming", now)) == [a];
    assert Filter([a], TabTest("past", now)) == [a];
  }

  /** A cancelled appointment in the past is on both the past and the cancelled tab. */
  lemma CancelledPastOnTwoTabs(a: Appointment, now: int)
    requires Before(a, now) && a.status == Str("cancelled")
    ensures Visible([a], "past", "", now) == [a]
    ensures Visible([a], "cancelled", "", now) == [a]
  {
    assert Filter([a], TabTest("past", now)) == [a];
    assert Filter([a], TabTest("cancelled", now)) == [a];
  }

  /** An appointment with an invalid date is on neither the upcoming tab nor, unless completed,
      the past tab. */
  lemma InvalidDateTabs(a: Appointment, now: int)
    requires a.date.None?
    ensures !Upcoming(a, now)
    ensures Past(a, now) <==> a.status == Str("completed")
  {
  }

  // --------------------------------------------------------------- counts

  /** The count a tab header shows: every fetched appointment passing the tab's test. */
  function TabCount(apps: seq<Appointment>, tab: string, now: int): (n: nat)
    requires IsTab(tab)
    ensures n <= |apps|
  {
    Count(apps, TabTest(tab, now))
  }

  /** A count ignores the search: it is the length of the tab with an empty query, and a search
      never shows more than the count. */
  lemma CountsIgnoreSearch(apps: seq<Appointment>, tab: string, query: string, now: int)
    requires IsTab(tab)
    ensures TabCount(apps, tab, now) == |Visible(apps, tab, "", now)|
    ensures |Visible(apps, tab, query, now)| <= TabCount(apps, tab, now)
  {
  }

  /** Upcoming and cancelled exclude each other, so their counts add up to at most the list. */
  lemma UpcomingCancelledDisjoint(apps: seq<Appointment>, now: int)
    ensures TabCount(apps, "upcoming", now) + TabCount(apps, "cancelled", now) <= |apps|
  {
    FilterDisjoint(apps, TabTest("upcoming", now), TabTest("cancelled", now));
  }

  // ----------------------------------------------------- badges, actions

  datatype Badge = Badge(color: string, caption: string)

  const StatusConfig: map<string, Badge> := map[
    "pending" := Badge("bg-yellow-100 text-yellow-800", "Pending"),
    "confirmed" := Badge("bg-blue-100 text-blue-800", "Confirmed"),
    "completed" := Badge("bg-green-100 text-green-800", "Completed"),
    "cancelled" := Badge("bg-red-100 text-red-800", "Cancelled")
  ]

  /** `statusConfig[status] || statusConfig.pending`: the status is used as a property key. */
  function StatusBadge(status: JsValue): (b: Badge)
    ensures TemplateText(status) in StatusConfig ==> b == StatusConfig[TemplateText(status)]
    ensures TemplateText(status) !in StatusConfig ==> b == StatusConfig["pending"]
  {
    var key := TemplateText(status);
    if key in StatusConfig then StatusConfig[key] else StatusConfig["pending"]
  }

  /** Each known status shows its own label; a missing or unknown status shows as pending. */
  lemma BadgeLabels(status: JsValue)
    ensures StatusBadge(status).caption == "Cancelled" <==> TemplateText(status) == "cancelled"
    ensures StatusBadge(status).caption == "Completed" <==> TemplateText(status) == "completed"
    ensures StatusBadge(status).caption == "Confirmed" <==> TemplateText(status) == "confirmed"
    ensures StatusBadge(status).caption == "Pending" <==>
      TemplateText(status) == "pending" || TemplateText(status) !in StatusConfig
    ensures StatusBadge(Undefined).caption == "Pending"
  {
  }

  /** The Cancel button on a card. */
  predicate CancelShown(tab: string, a: Appointment) {
    tab == "upcoming" && a.status != Str("cancelled")
  }

  /** Every card on the upcoming tab offers Cancel, and no card on any other tab does. */
  lemma CancelOnUpcomingOnly(apps: seq<Appointment>, tab: string, query: string, now: int)
    ensures tab == "upcoming" ==> forall a :: a in Visible(apps, tab, query, now) ==> CancelShown(tab, a)
    ensures tab != "upcoming" ==> forall a :: !CancelShown(tab, a)
  {
    VisibleMembers(apps, tab, query, now);
  }

  // ----------------------------------------------------------------- page

  class AppointmentsPage {
    var appointments: seq<Appointment>
    var filtered: seq<Appointment>
    var loading: bool
    var activeTab: string
    var searchQuery: string

    constructor ()
      ensures appointments == [] && filtered == [] && loading
      ensures activeTab == "upcoming" && searchQuery == ""
    {
      appointments := [];
      filtered := [];
      loading := true;
      activeTab := "upcoming";
      searchQuery := "";
    }

    /** `filterAppointments`: narrows a copy of the list by tab, then by search, and stores it. */
    method FilterAppointments(now: int)
      modifies this`filtered
      ensures filtered == Visible(appointments, activeTab, searchQuery, now)
      ensures forall a :: a in filtered <==>
        a in appointments && InTab(activeTab, a, now) && (searchQuery == "" || MatchesSearch(a, searchQuery))
    {
      var result := appointments;
      if activeTab == "upcoming" {
        result := Filter(result, TabTest("upcoming", now));
      } else if activeTab == "past" {
        result := Filter(result, TabTest("past", now));
      } else if activeTab == "cancelled" {
        result := Filter(result, TabTest("cancelled", now));
      }
      if searchQuery != "" {
        result := Filter(result, SearchTest(searchQuery));
      }
      filtered := result;
      VisibleMembers(appointments, activeTab, searchQuery, now);
    }

    /** `fetchAppointments` followed by the filtering effect it triggers. A failed request keeps
        the old list and the old shown list; loading is off either way. */
    method FetchAppointments(result: Option<seq<Appointment>>, now: int)
      modifies this`appointments, this`filtered, this`loading
      ensures !loading
      ensures result.Some? ==> appointments == result.value && filtered == Visible(appointments, activeTab, searchQuery, now)
      ensures result.None? ==> appointments == old(appointments) && filtered == old(filtered)
    {
      loading := true;
      if result.Some? {
        appointments := result.value;
        FilterAppointments(now);
      }
      loading := false;
    }

    /** Switching tabs re-runs the filtering. */
    method SetActiveTab(tab: string, now: int)
      modifies this`activeTab, this`filtered
      ensures activeTab == tab && filtered == Visible(appointments, tab, searchQuery, now)
    {
      activeTab := tab;
      FilterAppointments(now);
    }

    /** Typing in the search box re-runs the filtering. */
    method SetSearchQuery(query: string, now: int)
      modifies this`searchQuery, this`filtered
      ensures searchQuery == query && filtered == Visible(appointments, activeTab, query, now)
    {
      searchQuery := query;
      FilterAppointments(now);
    }
  }
}
