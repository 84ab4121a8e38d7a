/** The booking wizard (src/pages/BookAppointment.jsx): step 1 chooses a
    date and a slot, step 2 collects the visit details, step 3 reviews and
    submits, step 4 confirms. The slot list comes from the availability
    response, with a fixed seven-slot fallback; submitting maps the draft
    onto the request fields. Network outcomes and `Math.random` draws are
    parameters. */
module BookAppointment {
  import opened Text
  import opened DatePicker
  import opened TimeSlotPicker

  // ------------------------------------------------------------ steps

  /** `handleNext`: 1 -> 2 when a date and a slot are chosen, 2 -> 3 when reason and
      symptoms are filled in, otherwise no move. */
  function NextStep(step: int, canProceedToStep2: bool, canProceedToStep3: bool): int {
    if step == 1 && canProceedToStep2 then 2
    else if step == 2 && canProceedToStep3 then 3
    else step
  }

  /** `handleBack`: one step back, never below step 1. */
  function BackStep(step: int): int {
    if step > 1 then step - 1 else step
  }

  /** The wizard moves forward exactly from step 1 with a date and slot, or from step 2 with
      the required details; it then moves by exactly one step. */
  lemma NextStepGuarded(step: int, c2: bool, c3: bool)
    ensures NextStep(step, c2, c3) != step <==> (step == 1 && c2) || (step == 2 && c3)
    ensures NextStep(step, c2, c3) == step || NextStep(step, c2, c3) == step + 1
    ensures 1 <= step <= 4 ==> 1 <= NextStep(step, c2, c3) <= 4
    ensures NextStep(step, c2, c3) == 4 ==> step == 4
  {
  }

  /** Going back lowers the step by exactly one and never leaves the range 1..4. */
  lemma BackStepBounded(step: int)
    ensures step > 1 ==> BackStep(step) == step - 1
    ensures 1 <= step <= 4 ==> 1 <= BackStep(step) <= 4
    ensures BackStep(step) >= 1 || step < 1
  {
  }

  /** Back undoes a successful Next. */
  lemma BackUndoesNext(step: int, c2: bool, c3: bool)
    requires NextStep(step, c2, c3) != step
    ensures BackStep(NextStep(step, c2, c3)) == step
  {
  }

  // ----------------------------------------------------------- form data

  const ReasonField := "reasonForVisit"
  const SymptomsField := "symptoms"
  const AllergiesField := "allergies"
  const MedicationsField := "medications"
  const NotesField := "notes"

  const FormFields: set<string> := {ReasonField, SymptomsField, AllergiesField, MedicationsField, NotesField}

  /** The intake form as first rendered: every field empty. */
  const InitialForm: map<string, string> :=
    map[ReasonField := "", SymptomsField := "", AllergiesField := "", MedicationsField := "", NotesField := ""]

  /** The options of the reason drop-down (`reasons`). */
  const Reasons: seq<string> :=
    ["General Checkup", "Follow-up Visit", "New Symptoms", "Prescription Refill", "Test Results Review", "Other"]

  // -------------------------------------------------------- mock slots

  /** The start times of the fallback slots, in order. */
  const MockTimes: seq<string> := ["09:00", "10:00", "11:00", "14:00", "15:00", "16:00", "17:00"]

  /** `${(parseInt(hour) + 1).toString().padStart(2, '0')}:${minute}` for `[hour, minute] = time.split(':')`. */
  function MockEndTime(time: string): string {
    var parts := Split(time, ':');
    var hour := ParseInt(parts[0]);
    var endHour := if hour.Some? then IntToString(hour.value + 1) else "NaN";
    var minute := if |parts| >= 2 then parts[1] else "undefined";
    PadStart(endHour, 2, '0') + ":" + minute
  }

  /** For "hh:mm" the fallback end time is the next hour, zero-padded to two digits, with the same
      minutes; reading it back gives hour + 1 and the minutes. */
  lemma MockEndTimeOfClock(hh: string, mm: string)
    requires |hh| > 0 && AllDigits(hh) && ':' !in mm
    ensures MockEndTime(hh + ":" + mm) == PadStart(NatToString(DigitsValue(hh) + 1), 2, '0') + ":" + mm
    ensures Split(MockEndTime(hh + ":" + mm), ':') == [PadStart(NatToString(DigitsValue(hh) + 1), 2, '0'), mm]
    ensures ParseInt(Split(MockEndTime(hh + ":" + mm), ':')[0]) == Some(DigitsValue(hh) + 1)
  {
    DigitsExclude(hh, ':');
    SplitTwo(hh, mm, ':');
    assert hh + ":" + mm == hh + [':'] + mm;
    ParseIntOfDigits(hh);
    var e := PadStart(NatToString(DigitsValue(hh) + 1), 2, '0');
    assert MockEndTime(hh + ":" + mm) == e + ":" + mm;
    PaddedDigits(DigitsValue(hh) + 1, 2, ':');
    SplitTwo(e, mm, ':');
    assert e + ":" + mm == e + [':'] + mm;
    ParseIntPadded(DigitsValue(hh) + 1, 2);
  }

  /** The fallback slot pushed for one start time. */
  function MockSlot(time: string, booked: bool): (s: Slot)
    ensures s.startTime == time && s.isBooked == booked
  {
    Slot(time, MockEndTime(time), booked)
  }

  /** The `times.forEach(time => slots.push(...))` loop of `generateMockSlots`, over any list of
      times and any rule for the end time. */
  method PushMockSlots(times: seq<string>, draws: seq<bool>, endTime: string -> string) returns (slots: seq<Slot>)
    requires |draws| == |times|
    ensures |slots| == |times|
    ensures forall i :: 0 <= i < |slots| ==> slots[i] == Slot(times[i], endTime(times[i]), draws[i])
  {
    slots := [];
    var i := 0;
    while i < |times|
      invariant 0 <= i <= |times|
      invariant |slots| == i
      invariant forall j :: 0 <= j < i ==> slots[j] == Slot(times[j], endTime(times[j]), draws[j])
    {
      slots := slots + [Slot(times[i], endTime(times[i]), draws[i])];
      i := i + 1;
    }
  }

  /** `generateMockSlots()`: one slot per entry of `MockTimes`, in order, booked when its draw
      of `Math.random() > 0.7` came out true. */
  method GenerateMockSlots(draws: seq<bool>) returns (slots: seq<Slot>)
    requires |draws| == |MockTimes|
    ensures |slots| == |MockTimes|
    ensures forall i :: 0 <= i < |slots| ==> slots[i] == MockSlot(MockTimes[i], draws[i])
  {
    slots := PushMockSlots(MockTimes, draws, MockEndTime);
  }

  /** Every fallback start time is two digits, ':' and two digits. */
  lemma MockTimesAreClockTimes(i: int)
    requires 0 <= i < |MockTimes|
    ensures MockTimes[i] == MockTimes[i][..2] + ":" + MockTimes[i][3..]
    ensures AllDigits(MockTimes[i][..2]) && |MockTimes[i][..2]| == 2 && ':' !in MockTimes[i][3..]
  {
  }

  // ----------------------------------------------------- availability

  /** How the availability request ended. A slots field holds `Some(list)` when it is an
      array (empty arrays included, which are truthy) and `None` when it is absent or falsy. */
  datatype SlotsOutcome =
    | Threw
    | Responded(dataSlots: Option<seq<Slot>>, slots: Option<seq<Slot>>)

  /** `response.data?.slots || response.slots || generateMockSlots()`, with the mock list also
      used when the request throws. */
  function ChosenSlots(outcome: SlotsOutcome, mock: seq<Slot>): (r: seq<Slot>)
    ensures outcome.Responded? && outcome.dataSlots.Some? ==> r == outcome.dataSlots.value
    ensures r == mock <== outcome.Threw? || (outcome.dataSlots.None? && outcome.slots.None?)
  {
    match outcome
    case Threw => mock
    case Responded(d, s) => if d.Some? then d.value else if s.Some? then s.value else mock
  }

  /** The fallback is used only when the request threw or neither field held a list;
      an empty list from the server is kept. */
  lemma MockOnlyWithoutServerSlots(outcome: SlotsOutcome, mock: seq<Slot>, server: seq<Slot>)
    requires outcome == Responded(Some(server), None) || outcome == Responded(None, Some(server))
    ensures ChosenSlots(outcome, mock) == server
  {
  }

  // ----------------------------------------------------------- request

  /** Two-digit (or wider) zero-padded decimal text. */
  function Pad2(n: nat): string {
    PadStart(NatToString(n), 2, '0')
  }

  /** `date.toISOString().split('T')[0]`: the full-date of section 5.6 of RFC 3339,
      "YYYY-MM-DD" for years 0..9999 (the expanded "+YYYYYY" form otherwise). */
  function FullDate(d: Day): string {
    var year :=
      if 0 <= d.year <= 9999 then PadStart(NatToString(d.year), 4, '0')
      else (if d.year < 0 then "-" else "+") + PadStart(NatToString(if d.year < 0 then -d.year else d.year), 6, '0');
    year + "-" + Pad2(d.month + 1) + "-" + Pad2(d.day)
  }

  /** The full-date has three '-'-separated fields that read back as the year, the 1-based
      month and the day. */
  lemma FullDateRoundTrip(d: Day)
    requires 0 <= d.year <= 9999
    ensures |Split(FullDate(d), '-')| == 3
    ensures ParseInt(Split(FullDate(d), '-')[0]) == Some(d.year)
    ensures ParseInt(Split(FullDate(d), '-')[1]) == Some(d.month + 1)
    ensures ParseInt(Split(FullDate(d), '-')[2]) == Some(d.day)
  {
    var y := PadStart(NatToString(d.year), 4, '0');
    var m := Pad2(d.month + 1);
    var dd := Pad2(d.day);
    PaddedDigits(d.year, 4, '-');
    PaddedDigits(d.month + 1, 2, '-');
    PaddedDigits(d.day, 2, '-');
    assert FullDate(d) == y + ['-'] + m + ['-'] + dd;
    SplitThree(y, m, dd, '-');
    ParseIntPadded(d.year, 4);
    ParseIntPadded(d.month + 1, 2);
    ParseIntPadded(d.day, 2);
  }

  /** The body of the booking request. */
  datatype AppointmentRequest = AppointmentRequest(
    doctorId: string,
    appointmentDate: string,
    startTime: string,
    endTime: string,
    reason: string,
    symptoms: string,
    allergies: string,
    currentMedications: string,
    notes: string)

  /** `appointmentData`; `None` is the TypeError raised when no date or no slot is chosen. */
  function Payload(doctorId: string, date: Option<Day>, slot: Option<Slot>, form: map<string, string>):
    (r: Option<AppointmentRequest>)
    requires FormFields <= form.Keys
    ensures r.Some? <==> date.Some? && slot.Some?
    ensures r.Some? ==>
              r.value.reason == form[ReasonField]
              && r.value.currentMedications == form[MedicationsField]
              && r.value.symptoms == form[SymptomsField]
              && r.value.allergies == form[AllergiesField]
              && r.value.notes == form[NotesField]
              && r.value.startTime == slot.value.startTime
              && r.value.endTime == slot.value.endTime
              && r.value.doctorId == doctorId
              && r.value.appointmentDate == FullDate(date.value)
  {
    if date.None? || slot.None? then None
    else Some(AppointmentRequest(doctorId, FullDate(date.value), slot.value.startTime, slot.value.endTime,
                                 form[ReasonField], form[SymptomsField], form[AllergiesField],
                                 form[MedicationsField], form[NotesField]))
  }

  // ------------------------------------------------------------ wizard

  /** The page's state; `doctorId` is the route parameter. */
  class BookingWizard {
    const doctorId: string
    var currentStep: int
    var selectedDate: Option<Day>
    var selectedSlot: Option<Slot>
    var availableSlots: seq<Slot>
    var loadingSlots: bool
    var formData: map<string, string>
    var submitting: bool

    ghost predicate Valid()
      reads this
    {
      1 <= currentStep <= 4 && FormFields <= formData.Keys
    }

    /** `canProceedToStep2`: a date and a slot are chosen. */
    predicate CanProceedToStep2()
      reads this
    {
      selectedDate.Some? && selectedSlot.Some?
    }

    /** `canProceedToStep3`: reason and symptoms are non-empty. */
    predicate CanProceedToStep3()
      reads this
      requires FormFields <= formData.Keys
    {
      formData[ReasonField] != "" && formData[SymptomsField] != ""
    }

    /** Every step past 1 was entered through its guard, and the guard still holds. */
    ghost predicate GuardsHold()
      reads this
      requires Valid()
    {
      (currentStep >= 2 ==> CanProceedToStep2()) && (currentStep >= 3 ==> CanProceedToStep3())
    }

    constructor(doctorId: string)
      ensures this.doctorId == doctorId && currentStep == 1
      ensures selectedDate.None? && selectedSlot.None? && availableSlots == [] && !loadingSlots
      ensures formData == InitialForm && !submitting
      ensures Valid() && GuardsHold()
    {
      this.doctorId := doctorId;
      currentStep := 1;
      selectedDate := None;
      selectedSlot := None;
      availableSlots := [];
      loadingSlots := false;
      formData := InitialForm;
      submitting := false;
    }

    method HandleNext()
      requires Valid()
      modifies this`currentStep
      ensures Valid()
      ensures currentStep == NextStep(old(currentStep), CanProceedToStep2(), CanProceedToStep3())
      ensures old(GuardsHold()) ==> GuardsHold()
    {
      if currentStep == 1 && CanProceedToStep2() {
        currentStep := 2;
      } else if currentStep == 2 && CanProceedToStep3() {
        currentStep := 3;
      }
    }

    method HandleBack()
      requires Valid()
      modifies this`currentStep
      ensures Valid()
      ensures currentStep == BackStep(old(currentStep))
      ensures old(GuardsHold()) ==> GuardsHold()
    {
      if currentStep > 1 {
        currentStep := currentStep - 1;
      }
    }

    /** `handleDateSelect`: store the day and forget the chosen slot. */
    method HandleDateSelect(date: Day)
      requires Valid()
      modifies this`selectedDate, this`selectedSlot
      ensures Valid()
      ensures selectedDate == Some(date) && selectedSlot == None
      ensures old(GuardsHold()) && currentStep == 1 ==> GuardsHold()
    {
      selectedDate := Some(date);
      selectedSlot := None;
    }

    /** `handleSlotSelect`: store the slot as given (booking status is checked by the picker, not here). */
    method HandleSlotSelect(slot: Slot)
      requires Valid()
      modifies this`selectedSlot
      ensures Valid()
      ensures selectedSlot == Some(slot)
      ensures old(GuardsHold()) ==> GuardsHold()
    {
      selectedSlot := Some(slot);
    }

    /** A click on a slot button of the picker: booked slots are never stored. */
    method PickSlot(slot: Slot)
      requires Valid()
      modifies this`selectedSlot
      ensures Valid()
      ensures selectedSlot == if slot.isBooked then old(selectedSlot) else Some(slot)
      ensures old(GuardsHold()) ==> GuardsHold()
    {
      var chosen := ClickSlot(slot);
      if chosen.Some? {
        HandleSlotSelect(chosen.value);
      }
    }

    /** `handleInputChange`: set one field of the form, keep the others. */
    method HandleInputChange(name: string, value: string)
      requires Valid()
      modifies this`formData
      ensures Valid()
      ensures formData == old(formData)[name := value]
      ensures forall f :: f in old(formData) && f != name ==> f in formData && formData[f] == old(formData)[f]
      ensures old(GuardsHold()) && currentStep <= 2 ==> GuardsHold()
    {
      formData := formData[name := value];
    }

    /** `fetchAvailableSlots` run to completion: the slots of the response, or the fallback. */
    method FetchAvailableSlots(outcome: SlotsOutcome, draws: seq<bool>)
      requires Valid() && |draws| == |MockTimes|
      modifies this`availableSlots, this`loadingSlots
      ensures Valid()
      ensures !loadingSlots
      ensures outcome.Responded? && outcome.dataSlots.Some? ==> availableSlots == outcome.dataSlots.value
      ensures outcome.Responded? && outcome.dataSlots.None? && outcome.slots.Some? ==> availableSlots == outcome.slots.value
      ensures outcome.Threw? || (outcome.dataSlots.None? && outcome.slots.None?) ==>
                |availableSlots| == |MockTimes|
                && forall i :: 0 <= i < |MockTimes| ==>
                     availableSlots[i] == MockSlot(MockTimes[i], draws[i])
      ensures old(GuardsHold()) ==> GuardsHold()
    {
      loadingSlots := true;
      if outcome.Responded? && outcome.dataSlots.Some? {
        availableSlots := outcome.dataSlots.value;
      } else if outcome.Responded? && outcome.slots.Some? {
        availableSlots := outcome.slots.value;
      } else {
        availableSlots := GenerateMockSlots(draws);
      }
      loadingSlots := false;
    }

    /** A click on a calendar day in step 1 followed by the slot fetch the new date triggers. */
    method ChooseDate(date: Day, outcome: SlotsOutcome, draws: seq<bool>)
      requires Valid() && |draws| == |MockTimes|
      modifies this`selectedDate, this`selectedSlot, this`availableSlots, this`loadingSlots
      ensures Valid()
      ensures selectedDate == Some(date) && selectedSlot == None && !loadingSlots
      ensures outcome.Responded? && outcome.dataSlots.Some? ==> availableSlots == outcome.dataSlots.value
      ensures outcome.Responded? && outcome.dataSlots.None? && outcome.slots.Some? ==> availableSlots == outcome.slots.value
      ensures outcome.Threw? || (outcome.dataSlots.None? && outcome.slots.None?) ==>
                |availableSlots| == |MockTimes|
                && forall i :: 0 <= i < |MockTimes| ==>
                     availableSlots[i] == MockSlot(MockTimes[i], draws[i])
      ensures old(GuardsHold()) && currentStep == 1 ==> GuardsHold()
    {
      HandleDateSelect(date);
      FetchAvailableSlots(outcome, draws);
    }

    /** `handleSubmit`: build the request, send it (`serviceSucceeds` is the outcome), move to the
        confirmation step on success, alert on any failure; the form is kept either way. */
    method HandleSubmit(serviceSucceeds: bool) returns (request: Option<AppointmentRequest>, alerted: bool)
      requires Valid()
      modifies this`currentStep, this`submitting
      ensures Valid()
      ensures request == Payload(doctorId, selectedDate, selectedSlot, formData)
      ensures request.Some? && serviceSucceeds ==> currentStep == 4 && !alerted
      ensures !(request.Some? && serviceSucceeds) ==> currentStep == old(currentStep) && alerted
      ensures !submitting
      ensures old(GuardsHold()) && old(currentStep) == 3 ==> GuardsHold()
    {
      submitting := true;
      request := Payload(doctorId, selectedDate, selectedSlot, formData);
      if request.Some? && serviceSucceeds {
        currentStep := 4;
        alerted := false;
      } else {
        alerted := true;
      }
      submitting := false;
    }
  }

  /** The first step of the happy path: a date and an open slot lead on to the details step. */
  method ScheduleStep(w: BookingWizard, date: Day, slot: Slot, outcome: SlotsOutcome, draws: seq<bool>)
    requires w.Valid() && w.currentStep == 1 && !slot.isBooked && |draws| == |MockTimes|
    modifies w`selectedDate, w`selectedSlot, w`availableSlots, w`loadingSlots, w`currentStep
    ensures w.Valid() && w.currentStep == 2 && w.formData == old(w.formData)
    ensures w.selectedDate == Some(date) && w.selectedSlot == Some(slot)
  {
    w.ChooseDate(date, outcome, draws);
    w.PickSlot(slot);
    w.HandleNext();
  }

  /** The happy path: choose a date and an open slot, fill in the details, review and submit;
      the guards let every step through and the request carries the draft. */
  method BookingFlow(doctorId: string, date: Day, slot: Slot, outcome: SlotsOutcome, draws: seq<bool>,
                     reason: string, symptoms: string) returns (request: Option<AppointmentRequest>)
    requires !slot.isBooked && reason != "" && symptoms != "" && |draws| == |MockTimes|
    ensures request.Some? && request.value.reason == reason && request.value.symptoms == symptoms
    ensures request.Some? && request.value.startTime == slot.startTime && request.value.endTime == slot.endTime
    ensures request.Some? && request.value.appointmentDate == FullDate(date)
  {
    var w := new BookingWizard(doctorId);
    ScheduleStep(w, date, slot, outcome, draws);
    w.HandleInputChange(ReasonField, reason);
    w.HandleInputChange(SymptomsField, symptoms);
    w.HandleNext();
    assert w.currentStep == 3;
    var alerted;
    request, alerted := w.HandleSubmit(true);
    assert w.currentStep == 4;
  }
}
