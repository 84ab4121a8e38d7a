/** The doctor dashboard: the fetched appointments that fall on today's
    calendar day, and a stats record whose only derived entry is the number
    of those appointments (the other three are fixed placeholder figures). */
module DoctorDashboard {
  import opened Text
  import opened Seqs
  import opened Appointments

  datatype Stats = Stats(totalPatients: int, todayAppointments: int, monthlyEarnings: int, rating: real)

  const ZeroStats: Stats := Stats(0, 0, 0, 0.0)

  /** `new Date(appointment_date).toDateString() === new Date().toDateString()`: an invalid date
      prints "Invalid Date" and never matches. */
  predicate OnSameDay(a: Appointment, now: int) {
    a.date.Some? && CalendarDay(a.date.value) == CalendarDay(now)
  }

  function TodayTest(now: int): Appointment -> bool {
    a => OnSameDay(a, now)
  }

  function TodayAppointments(apps: seq<Appointment>, now: int): seq<Appointment> {
    Filter(apps, TodayTest(now))
  }

  /** An instant is on today's calendar day exactly when it lies in today's 24-hour block. */
  lemma SameDayBlock(instant: int, now: int)
    ensures CalendarDay(instant) == CalendarDay(now) <==>
      CalendarDay(now) * MillisPerDay <= instant < (CalendarDay(now) + 1) * MillisPerDay
  {
    CalendarDayBounds(instant);
    CalendarDayBounds(now);
  }

  /** Today's list holds exactly the fetched appointments dated within today's block, in order. */
  lemma TodayAppointmentsFacts(apps: seq<Appointment>, now: int)
    ensures forall a :: a in TodayAppointments(apps, now) <==>
      a in apps && a.date.Some? &&
      CalendarDay(now) * MillisPerDay <= a.date.value < (CalendarDay(now) + 1) * MillisPerDay
    ensures IsSubsequence(TodayAppointments(apps, now), apps)
  {
    forall a | a in apps && a.date.Some? {
      SameDayBlock(a.date.value, now);
    }
    FilterIsSubsequence(apps, TodayTest(now));
  }

  /** The record `setStats` receives after a successful fetch. */
  function DashboardStats(todayApts: seq<Appointment>): (s: Stats)
    ensures s.todayAppointments == |todayApts|
  {
    Stats(156, |todayApts|, 12500, 4.8)
  }

  /** Only the appointment count depends on the appointments; the rest are fixed figures. */
  lemma StatsArePlaceholders(x: seq<Appointment>, y: seq<Appointment>)
    ensures DashboardStats(x).(todayAppointments := 0) == DashboardStats(y).(todayAppointments := 0)
    ensures DashboardStats(x) == DashboardStats(y) <==> |x| == |y|
  {
  }

  class DashboardPage {
    var todayAppointments: seq<Appointment>
    var stats: Stats
    var loading: bool

    constructor ()
      ensures todayAppointments == [] && stats == ZeroStats && loading
    {
      todayAppointments := [];
      stats := ZeroStats;
      loading := true;
    }

    /** `fetchDashboardData`: a failed request changes neither the list nor the stats; loading
        ends either way. */
    method FetchDashboardData(result: Option<seq<Appointment>>, now: int)
      modifies this
      ensures !loading
      ensures result.Some? ==> todayAppointments == TodayAppointments(result.value, now)
      ensures result.Some? ==> stats == DashboardStats(todayAppointments)
      ensures result.None? ==> todayAppointments == old(todayAppointments) && stats == old(stats)
    {
      if result.Some? {
        var todayApts := Filter(result.value, TodayTest(now));
        todayAppointments := todayApts;
        stats := Stats(156, |todayApts|, 12500, 4.8);
      }
      loading := false;
    }
  }

  /** A dashboard whose first fetch fails keeps its zero stats; one that succeeds counts
      exactly today's appointments. */
  method FirstFetch(result: Option<seq<Appointment>>, now: int) returns (page: DashboardPage)
    ensures !page.loading
    ensures result.None? ==> page.stats == ZeroStats && page.todayAppointments == []
    ensures result.Some? ==> page.stats.todayAppointments == |TodayAppointments(result.value, now)|
  {
    page := new DashboardPage();
    page.FetchDashboardData(result, now);
  }
}
