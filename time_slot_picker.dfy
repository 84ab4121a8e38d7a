/** The slot grid of the booking page (src/components/common/TimeSlotPicker.jsx):
    12-hour time labels, which slot is highlighted, the booked-slot click
    guard, and what the component shows while loading, for no slots, and
    for a list of slots. The component holds no state. */
module TimeSlotPicker {
  import opened Text

  /** One bookable interval, with times as "HH:MM" text. */
  datatype Slot = Slot(startTime: string, endTime: string, isBooked: bool)

  /** `hour % 12 || 12`: the hour shown on a 12-hour clock. */
  function DisplayHour(hour: int): (d: int)
    ensures hour >= 0 ==> 1 <= d <= 12 && d % 12 == hour % 12
    ensures hour < 0 ==> -12 < d <= 12
  {
    var r := Rem(hour, 12);
    if r != 0 then r else 12
  }

  /** `hour >= 12 ? 'PM' : 'AM'`, where NaN compares false. */
  function Meridiem(hour: Option<int>): string {
    if hour.Some? && hour.value >= 12 then "PM" else "AM"
  }

  /** `formatTime(time)`: split at ':', parse the hours, print `${displayHour}:${minutes} ${ampm}`.
      A NaN hour shows as 12 AM; missing minutes print as "undefined". */
  function FormatTime(time: string): string {
    var parts := Split(time, ':');
    var hour := ParseInt(parts[0]);
    var displayHour := if hour.Some? then IntToString(DisplayHour(hour.value)) else "12";
    var minutes := if |parts| >= 2 then parts[1] else "undefined";
    displayHour + ":" + minutes + " " + Meridiem(hour)
  }

  /** "hh:mm" splits at the colon into the hours and the minutes. */
  lemma SplitClock(hh: string, mm: string)
    requires AllDigits(hh) && ':' !in mm
    ensures Split(hh + ":" + mm, ':') == [hh, mm]
  {
    assert ':' !in hh;
    SplitAtSeparator(hh, ':', mm);
    SplitFree(mm, ':');
    assert hh + ":" + mm == hh + [':'] + mm;
  }

  /** For "hh:mm" text the label is the 12-hour hour (1..12), the minutes unchanged,
      and PM exactly from hour 12 on. */
  lemma FormatTimeOfClock(hh: string, mm: string)
    requires |hh| > 0 && AllDigits(hh) && ':' !in mm
    ensures FormatTime(hh + ":" + mm)
         == NatToString(DisplayHour(DigitsValue(hh))) + ":" + mm + " "
            + (if DigitsValue(hh) >= 12 then "PM" else "AM")
    ensures 1 <= DisplayHour(DigitsValue(hh)) <= 12
  {
    SplitClock(hh, mm);
    ParseIntOfDigits(hh);
  }

  /** Midnight and noon both read 12; morning hours read as they are and afternoon hours drop
      by twelve. */
  lemma DisplayHourOfDay(hour: int)
    requires 0 <= hour < 24
    ensures hour == 0 || hour == 12 ==> DisplayHour(hour) == 12
    ensures 1 <= hour < 12 ==> DisplayHour(hour) == hour
    ensures 12 < hour ==> DisplayHour(hour) == hour - 12
  {
  }

  /** `isSlotSelected(slot)`: a slot is chosen and both its times match. */
  predicate IsSlotSelected(selected: Option<Slot>, slot: Slot) {
    selected.Some? && selected.value.startTime == slot.startTime && selected.value.endTime == slot.endTime
  }

  /** The highlight depends on the times only: booking status is not compared. */
  lemma SelectionIgnoresBooking(selected: Option<Slot>, slot: Slot, booked: bool)
    ensures IsSlotSelected(selected, slot) <==> IsSlotSelected(selected, slot.(isBooked := booked))
    ensures selected.Some? ==> IsSlotSelected(selected, selected.value.(isBooked := booked))
  {
  }

  /** A click on a slot button: the slot handed to `onSlotSelect`, or `None` for a booked slot. */
  function ClickSlot(slot: Slot): (r: Option<Slot>)
    ensures r.Some? <==> !slot.isBooked
    ensures r.Some? ==> r.value == slot
  {
    if slot.isBooked then None else Some(slot)
  }

  /** One rendered slot button. */
  datatype SlotButton = SlotButton(startLabel: string, endLabel: string, selected: bool, disabled: bool)

  /** What the component renders. */
  datatype SlotView =
    | Placeholders(count: nat)
    | EmptyState
    | SlotGrid(countLabel: string, buttons: seq<SlotButton>)

  const LoadingPlaceholders: nat := 8

  /** The "N slot(s) available" header: every slot is counted, booked ones included. */
  function CountLabel(n: nat): string {
    NatToString(n) + " slot" + (if n != 1 then "s" else "") + " available"
  }

  function ButtonOf(slot: Slot, selected: Option<Slot>): SlotButton {
    SlotButton(FormatTime(slot.startTime), FormatTime(slot.endTime), IsSlotSelected(selected, slot), slot.isBooked)
  }

  /** The component's output for its props. */
  function Render(slots: seq<Slot>, selected: Option<Slot>, loading: bool): (v: SlotView)
    ensures loading ==> v == Placeholders(LoadingPlaceholders)
    ensures !loading && |slots| == 0 ==> v == EmptyState
    ensures !loading && |slots| > 0 ==>
              v.SlotGrid? && v.countLabel == CountLabel(|slots|) && |v.buttons| == |slots|
              && forall i :: 0 <= i < |slots| ==>
                   v.buttons[i].disabled == slots[i].isBooked
                   && v.buttons[i].selected == IsSlotSelected(selected, slots[i])
                   && v.buttons[i].startLabel == FormatTime(slots[i].startTime)
                   && v.buttons[i].endLabel == FormatTime(slots[i].endTime)
  {
    if loading then Placeholders(LoadingPlaceholders)
    else if |slots| == 0 then EmptyState
    else SlotGrid(CountLabel(|slots|), seq(|slots|, i requires 0 <= i < |slots| => ButtonOf(slots[i], selected)))
  }
}
