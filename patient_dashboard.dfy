/** The patient dashboard's "upcoming appointments" panel: the first three
    fetched appointments dated now or later, in the order the server sent
    them. The status is not consulted. */
module PatientDashboard {
  import opened Text
  import opened Seqs
  import opened Appointments

  function UpcomingTest(now: int): Appointment -> bool {
    a => OnOrAfter(a, now)
  }

  /** `appointments.filter(date >= now).slice(0, 3)`. */
  function ShownUpcoming(apps: seq<Appointment>, now: int): seq<Appointment> {
    Take(Filter(apps, UpcomingTest(now)), 3)
  }

  /** The panel shows at most three appointments, each dated now or later, and they are the
      first up-to-three such appointments of the fetched list, kept in its order. */
  lemma ShownUpcomingFacts(apps: seq<Appointment>, now: int)
    ensures |ShownUpcoming(apps, now)| <= 3
    ensures forall a :: a in ShownUpcoming(apps, now) ==> a in apps && OnOrAfter(a, now)
    ensures ShownUpcoming(apps, now) == Filter(apps, UpcomingTest(now))[..|ShownUpcoming(apps, now)|]
    ensures |Filter(apps, UpcomingTest(now))| >= 3 ==> |ShownUpcoming(apps, now)| == 3
    ensures IsSubsequence(ShownUpcoming(apps, now), apps)
  {
    var all := Filter(apps, UpcomingTest(now));
    var shown := ShownUpcoming(apps, now);
    assert forall a :: a in shown ==> a in all;
    FilterIsSubsequence(apps, UpcomingTest(now));
    PrefixIsSubsequence(all, apps, |shown|);
  }

  /** A cancelled appointment dated now or later still appears on the panel. */
  lemma CancelledFutureShown(a: Appointment, now: int)
    requires OnOrAfter(a, now) && a.status == Js.Str("cancelled")
    ensures ShownUpcoming([a], now) == [a]
  {
    assert Filter([a], UpcomingTest(now)) == [a];
  }

  class DashboardPage {
    var upcoming: seq<Appointment>
    var loading: bool

    constructor ()
      ensures upcoming == [] && loading
    {
      upcoming := [];
      loading := true;
    }

    /** `fetchUpcomingAppointments`: a failed request leaves the list as it was; loading ends
        either way. */
    method FetchUpcoming(result: Option<seq<Appointment>>, now: int)
      modifies this
      ensures !loading
      ensures result.Some? ==> upcoming == ShownUpcoming(result.value, now)
      ensures result.None? ==> upcoming == old(upcoming)
    {
      if result.Some? {
        upcoming := Take(Filter(result.value, UpcomingTest(now)), 3);
      }
      loading := false;
    }
  }

  /** A dashboard whose first fetch fails shows no appointment and is no longer loading. */
  method FirstFetch(result: Option<seq<Appointment>>, now: int) returns (page: DashboardPage)
    ensures !page.loading
    ensures result.None? ==> page.upcoming == []
    ensures result.Some? ==> |page.upcoming| <= 3
  {
    page := new DashboardPage();
    page.FetchUpcoming(result, now);
    if result.Some? {
      ShownUpcomingFacts(result.value, now);
    }
  }
}
