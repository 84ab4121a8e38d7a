/** An appointment as the appointment lists and dashboards read it from
    the API: its date (`new Date(appointment_date)`), its status, and the
    doctor it is with. Dates are instants in milliseconds since the epoch;
    an unparsable date is `None` (an Invalid Date, which compares false
    with everything). */
module Appointments {
  import opened Text
  import opened Js

  /** The doctor fields the lists read. A missing specialization is `None`. */
  datatype DoctorInfo = DoctorInfo(firstName: JsValue, lastName: JsValue, specialization: Option<string>)

  datatype Appointment = Appointment(date: Option<int>, status: JsValue, doctor: Option<DoctorInfo>)

  const MillisPerDay: int := 86400000

  /** `new Date(appointment_date) >= now`. */
  predicate OnOrAfter(a: Appointment, now: int) {
    a.date.Some? && a.date.value >= now
  }

  /** `new Date(appointment_date) < now`. */
  predicate Before(a: Appointment, now: int) {
    a.date.Some? && a.date.value < now
  }

  /** The calendar day an instant falls on (days since the epoch, counted in UTC). */
  function CalendarDay(instant: int): int {
    instant / MillisPerDay
  }

  /** Two instants are on the same calendar day exactly when they lie in the same
      24-hour block that starts at midnight. */
  lemma CalendarDayBounds(instant: int)
    ensures CalendarDay(instant) * MillisPerDay <= instant < (CalendarDay(instant) + 1) * MillisPerDay
  {
  }

  /** A valid date is never both before and on-or-after the same instant; an invalid one is neither. */
  lemma DateComparisons(a: Appointment, now: int)
    ensures !(OnOrAfter(a, now) && Before(a, now))
    ensures a.date.Some? ==> OnOrAfter(a, now) || Before(a, now)
    ensures a.date.None? ==> !OnOrAfter(a, now) && !Before(a, now)
  {
  }
}
